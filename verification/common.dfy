/** Optional values, outcomes of computations that may throw, and the two
    sequence searches the aggregator relies on. */
module Common {

  /** A value that may be absent; stands for a .NET reference that may be null. */
  datatype Option<+T> = None | Some(value: T)

  /** The outcome of a computation that either returns a value or throws. */
  datatype Result<+T, +E> = Ok(value: T) | Err(error: E)

  /** Index of the first element of `s` that satisfies `p`, if any: the search
      behind LINQ's `First` and `FirstOrDefault`. */
  function FirstWhere<T>(s: seq<T>, p: T -> bool): (r: Option<nat>)
    ensures r.Some? ==> r.value < |s| && p(s[r.value])
    ensures r.Some? ==> forall j :: 0 <= j < r.value ==> !p(s[j])
    ensures r.None? <==> forall j :: 0 <= j < |s| ==> !p(s[j])
  {
    if |s| == 0 then None
    else if p(s[0]) then Some(0)
    else match FirstWhere(s[1..], p)
      case None => None
      case Some(i) => Some(i + 1)
  }

  /** `String.IndexOf` for a one-character needle: the position of the first
      occurrence of `c` in `s`, or -1 when `s` does not contain it. */
  function IndexOf(s: string, c: char): (r: int)
    ensures r == -1 <==> c !in s
    ensures r != -1 ==> 0 <= r < |s| && s[r] == c && c !in s[..r]
  {
    match FirstWhere(s, x => x == c)
    case None => -1
    case Some(i) => i
  }

  /** Apply `f` to every element in order, stopping at the first error:
      `Select(f).ToList()` where `f` may throw. */
  function TryMap<T, U, E>(s: seq<T>, f: T -> Result<U, E>): (r: Result<seq<U>, E>)
    ensures r.Ok? <==> forall i :: 0 <= i < |s| ==> f(s[i]).Ok?
    ensures r.Ok? ==> |r.value| == |s| && forall i :: 0 <= i < |s| ==> f(s[i]) == Ok(r.value[i])
    ensures r.Err? ==> exists i :: 0 <= i < |s| && f(s[i]) == Err(r.error)
                         && forall j :: 0 <= j < i ==> f(s[j]).Ok?
  {
    if |s| == 0 then Ok([])
    else match f(s[0])
      case Err(e) => Err(e)
      case Ok(u) =>
        match TryMap(s[1..], f)
        case Err(e) =>
          ghost var i :| 0 <= i < |s| - 1 && f(s[1..][i]) == Err(e) && forall j :: 0 <= j < i ==> f(s[1..][j]).Ok?;
          assert f(s[i + 1]) == Err(e);
          Err(e)
        case Ok(us) => Ok([u] + us)
  }
}
