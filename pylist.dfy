/** The plain Python list operations that a materialised query result
    forwards to, stated on sequences. Each raises the same exception as
    Python's list does, as an `Err`. */
module PyList {
  import opened Wrappers

  /** Python's reading of an integer index: negative counts from the end. */
  function Normalize(len: nat, index: int): int
  {
    if index < 0 then len + index else index
  }

  /** `s[index]` */
  function Get<T>(s: seq<T>, index: int): (r: Result<T>)
    ensures r.Ok? <==> -|s| <= index < |s|
    ensures index < -|s| || |s| <= index ==> r == Err(IndexError)
    ensures 0 <= index < |s| ==> r == Ok(s[index])
    ensures -|s| <= index < 0 ==> r == Ok(s[|s| + index])
  {
    var i := Normalize(|s|, index);
    if 0 <= i < |s| then Ok(s[i]) else Err(IndexError)
  }

  /** A negative index and its non-negative counterpart name the same item. */
  lemma GetNegative<T>(s: seq<T>, i: nat)
    requires i < |s|
    ensures Get(s, i - |s|) == Get(s, i)
  {
  }

  /** `s[index] = item` */
  function SetItem<T>(s: seq<T>, index: int, item: T): (r: Result<seq<T>>)
    ensures r.Ok? <==> -|s| <= index < |s|
    ensures r.Ok? ==> |r.value| == |s| && r.value[Normalize(|s|, index)] == item
    ensures r.Ok? ==> forall j :: 0 <= j < |s| && j != Normalize(|s|, index) ==> r.value[j] == s[j]
  {
    var i := Normalize(|s|, index);
    if 0 <= i < |s| then Ok(s[i := item]) else Err(IndexError)
  }

  /** `del s[index]` */
  function DelItem<T>(s: seq<T>, index: int): (r: Result<seq<T>>)
    ensures r.Ok? <==> -|s| <= index < |s|
    ensures r.Ok? ==> |r.value| == |s| - 1
    ensures r.Ok? ==> forall j :: 0 <= j < |r.value| ==>
      r.value[j] == if j < Normalize(|s|, index) then s[j] else s[j + 1]
  {
    var i := Normalize(|s|, index);
    if 0 <= i < |s| then Ok(s[..i] + s[i + 1..]) else Err(IndexError)
  }

  /** Where `s.insert(index, item)` puts the item: the index read as a
      slice bound, clamped to 0 .. |s|. */
  function InsertPosition(len: nat, index: int): (p: nat)
    ensures p <= len
    ensures 0 <= index <= len ==> p == index
    ensures index < 0 && 0 <= len + index ==> p == len + index
    ensures index > len ==> p == len
    ensures len + index < 0 ==> p == 0
  {
    if index < 0 then Max0(len + index) else if index > len then len else index
  }

  function Max0(x: int): nat { if x < 0 then 0 else x }

  /** `s.insert(index, item)` */
  function Insert<T>(s: seq<T>, index: int, item: T): (r: seq<T>)
    ensures |r| == |s| + 1
    ensures r[InsertPosition(|s|, index)] == item
    ensures r[..InsertPosition(|s|, index)] == s[..InsertPosition(|s|, index)]
    ensures r[InsertPosition(|s|, index) + 1..] == s[InsertPosition(|s|, index)..]
  {
    var p := InsertPosition(|s|, index);
    s[..p] + [item] + s[p..]
  }

  /** `s.index(item, start, end)`: the first position in the slice
      s[start:end] that holds `item`, or ValueError. */
  function Index<T(==)>(s: seq<T>, item: T, start: int, end: int): (r: Result<nat>)
    ensures var lo, hi := InsertPosition(|s|, start), InsertPosition(|s|, end);
      && (r.Ok? ==> lo <= r.value < hi && s[r.value] == item
                    && forall j :: lo <= j < r.value ==> s[j] != item)
      && (r.Err? ==> r.error == ValueError && forall j :: lo <= j < hi ==> s[j] != item)
  {
    Search(s, item, InsertPosition(|s|, start), InsertPosition(|s|, end))
  }

  /** The first position in lo .. hi - 1 that holds `item`. */
  function Search<T(==)>(s: seq<T>, item: T, lo: nat, hi: nat): (r: Result<nat>)
    requires hi <= |s|
    ensures r.Ok? ==> lo <= r.value < hi && s[r.value] == item
                      && forall j :: lo <= j < r.value ==> s[j] != item
    ensures r.Err? ==> r.error == ValueError && forall j :: lo <= j < hi ==> s[j] != item
    decreases hi - lo
  {
    if lo >= hi then Err(ValueError)
    else if s[lo] == item then Ok(lo)
    else Search(s, item, lo + 1, hi)
  }

  /** `s.count(item)` */
  function Count<T(==)>(s: seq<T>, item: T): (n: nat)
    ensures n == multiset(s)[item]
    ensures n == 0 <==> item !in s
  {
    if s == [] then 0
    else
      assert s == [s[0]] + s[1..];
      (if s[0] == item then 1 else 0) + Count(s[1..], item)
  }

  /** `s.remove(item)`: drops the first occurrence, or ValueError. */
  function Remove<T(==)>(s: seq<T>, item: T): (r: Result<seq<T>>)
    ensures r.Ok? <==> item in s
    ensures r.Err? ==> r.error == ValueError
    ensures r.Ok? ==> |r.value| == |s| - 1 && multiset(r.value) == multiset(s) - multiset{item}
    ensures r.Ok? ==> exists i :: 0 <= i < |s| && s[i] == item && item !in s[..i] && r.value == s[..i] + s[i + 1..]
  {
    match Search(s, item, 0, |s|)
    case Ok(i) =>
      assert s == s[..i] + [s[i]] + s[i + 1..];
      assert item !in s[..i] by {
        assert forall j :: 0 <= j < i ==> s[..i][j] == s[j];
      }
      Ok(s[..i] + s[i + 1..])
    case Err(e) => Err(e)
  }

  /** `s.pop()`: the last item and the list without it, or IndexError. */
  function Pop<T>(s: seq<T>): (r: Result<(T, seq<T>)>)
    ensures r.Ok? <==> s != []
    ensures r.Err? ==> r.error == IndexError
    ensures r.Ok? ==> r.value.1 + [r.value.0] == s
  {
    if s == [] then Err(IndexError) else Ok((s[|s| - 1], s[..|s| - 1]))
  }

  /** `s.reverse()` and `reversed(s)` */
  function Reverse<T>(s: seq<T>): (r: seq<T>)
    ensures |r| == |s|
    ensures forall i :: 0 <= i < |s| ==> r[i] == s[|s| - 1 - i]
  {
    if s == [] then [] else Reverse(s[1..]) + [s[0]]
  }

  /** Reversing twice gives the list back. */
  lemma ReverseReverse<T>(s: seq<T>)
    ensures Reverse(Reverse(s)) == s
  {
  }
}
