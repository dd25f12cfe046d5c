/**
  What the front end (frontend/src) receives and shares between its pages: the
  shape of a decoded response body, JavaScript's `||` defaults, the window
  events the pages dispatch, and the item count both the cart page and the
  layout's badge compute.
*/
module ClientData {
  import opened Common

  /**
    A decoded JSON body as far as the pages look into it: null (or undefined),
    an array of records of type T, an object with named members, or any other
    scalar, known only by its truthiness.
  */
  datatype Json<T> = Null | Arr(items: seq<T>) | Obj(members: map<string, Json<T>>) | Scalar(truthy: bool)

  /** JavaScript truthiness: arrays and objects are truthy even when empty. */
  predicate Truthy<T>(j: Json<T>) {
    match j
    case Null => false
    case Arr(_) => true
    case Obj(_) => true
    case Scalar(b) => b
  }

  /** `j?.key`: undefined (here Null) unless j is an object holding the key. */
  function Member<T>(j: Json<T>, key: string): (r: Json<T>)
    ensures r != Null ==> j.Obj? && key in j.members && r == j.members[key]
  {
    if j.Obj? && key in j.members then j.members[key] else Null
  }

  /** `Array.isArray(j) ? j : []`. */
  function ArrayOr<T>(j: Json<T>): (r: seq<T>)
    ensures !j.Arr? ==> r == []
    ensures j.Arr? ==> r == j.items
  {
    if j.Arr? then j.items else []
  }

  /** The items of the first candidate that is an array, or [] when none is. */
  function FirstArray<T>(cands: seq<Json<T>>): (r: seq<T>)
    ensures (forall i :: 0 <= i < |cands| ==> !cands[i].Arr?) ==> r == []
    ensures forall k :: 0 <= k < |cands| && cands[k].Arr? && (forall i :: 0 <= i < k ==> !cands[i].Arr?) ==>
      r == cands[k].items
  {
    if cands == [] then []
    else if cands[0].Arr? then cands[0].items
    else
      var r := FirstArray(cands[1..]);
      assert forall k :: 1 <= k < |cands| ==> cands[k] == cands[1..][k - 1];
      r
  }

  /** `s || d` on a string: the empty string is falsy. */
  function OrElse(s: string, d: string): (r: string)
    ensures s != "" ==> r == s
    ensures s == "" ==> r == d
  {
    if s == "" then d else s
  }

  /** `s || d` on a value that may be absent (null or undefined) or empty. */
  function OptOrElse(s: Option<string>, d: string): (r: string)
    ensures s.Some? && s.value != "" ==> r == s.value
    ensures s.None? || s.value == "" ==> r == d
  {
    if s.Some? && s.value != "" then s.value else d
  }

  /** The window events the pages dispatch to one another. */
  datatype WindowEvent = AuthChanged | CartUpdated | WishlistUpdated

  /**
    How a failed request reaches a page: no response at all (server down,
    CORS), or a status with the body's "message" and "error" members, each
    absent when the body has no such member (an HTML error page has neither).
  */
  datatype Failure = NoResponse | Response(status: int, message: Option<string>, error: Option<string>)

  /** `err.response?.data?.error || d` */
  function ErrorOr(f: Failure, d: string): (r: string)
    ensures f.Response? && f.error.Some? && f.error.value != "" ==> r == f.error.value
    ensures f.NoResponse? || f.error.None? || f.error.value == "" ==> r == d
  {
    if f.Response? then OptOrElse(f.error, d) else d
  }

  /** `err.response?.data?.message || d` */
  function MessageOr(f: Failure, d: string): (r: string)
    ensures f.Response? && f.message.Some? && f.message.value != "" ==> r == f.message.value
    ensures f.NoResponse? || f.message.None? || f.message.value == "" ==> r == d
  {
    if f.Response? then OptOrElse(f.message, d) else d
  }

  /** `err.response?.data?.message || err.response?.data?.error || d` */
  function MessageOrError(f: Failure, d: string): (r: string)
    ensures f.Response? && f.message.Some? && f.message.value != "" ==> r == f.message.value
    ensures r == MessageOr(f, ErrorOr(f, d))
  {
    if f.Response? then OptOrElse(f.message, OptOrElse(f.error, d)) else d
  }

  /** How a GET ends for a page: with a decoded body, or with a failure. */
  datatype Fetch<T> = Fetched(body: T) | FetchFailed(failure: Failure)

  /** `Number(q || 1)`: a quantity of 0 (or a missing one) counts as one. */
  function Units(q: int): int {
    if q == 0 then 1 else q
  }

  /** `items.reduce((s, i) => s + Number(i.quantity || 1), 0)` over the items' quantities. */
  function ItemCount(qs: seq<int>): int {
    if qs == [] then 0 else ItemCount(qs[..|qs| - 1]) + Units(qs[|qs| - 1])
  }

  /** The plain sum of the quantities. */
  function Sum(qs: seq<int>): int {
    if qs == [] then 0 else Sum(qs[..|qs| - 1]) + qs[|qs| - 1]
  }

  /** Where no quantity is 0, the count is the plain sum of the quantities. */
  lemma {:induction false} ItemCountIsSum(qs: seq<int>)
    requires forall i :: 0 <= i < |qs| ==> qs[i] != 0
    ensures ItemCount(qs) == Sum(qs)
  {
    if qs != [] {
      ItemCountIsSum(qs[..|qs| - 1]);
    }
  }

  /** With no negative quantities every item counts at least once. */
  lemma {:induction false} ItemCountAtLeastLength(qs: seq<int>)
    requires forall i :: 0 <= i < |qs| ==> qs[i] >= 0
    ensures ItemCount(qs) >= |qs|
  {
    if qs != [] {
      ItemCountAtLeastLength(qs[..|qs| - 1]);
    }
  }
}
