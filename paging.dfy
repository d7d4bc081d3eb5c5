/** Page arithmetic shared by the REST and the GraphQL paging helpers: the
    maximum page size, how a requested limit becomes a per-page size, and
    what part of a server-side dataset a page fetch or a whole paging run
    covers. */
module Paging {

  /** Largest number of items one page fetch asks for. */
  const MaxQueryLimit: nat := 100

  function Min(a: int, b: int): int { if a <= b then a else b }

  function Max(a: int, b: int): int { if a <= b then b else a }

  /** Number of items a dataset of `size` items holds from `offset` on. */
  function Available(size: nat, offset: nat): nat { if offset <= size then size - offset else 0 }

  /** The per-page size used for a requested limit (0 meaning "no limit"):
      the requested limit clamped to MaxQueryLimit, or MaxQueryLimit itself. */
  function PageSize(requested: nat): (n: nat)
    ensures 1 <= n <= MaxQueryLimit
    ensures requested > 0 ==> n <= requested
    ensures 0 < requested <= MaxQueryLimit ==> n == requested
    ensures requested == 0 || MaxQueryLimit <= requested ==> n == MaxQueryLimit
  {
    if requested > 0 then Min(requested, MaxQueryLimit) else MaxQueryLimit
  }

  /** The items of `s` from position `n` on. */
  function Drop<T>(s: seq<T>, n: nat): (r: seq<T>)
    ensures |r| == Available(|s|, n)
    ensures forall i :: 0 <= i < |r| ==> r[i] == s[n + i]
  {
    if n <= |s| then s[n..] else []
  }

  /** The first `n` items of `s`, or all of them when there are fewer. */
  function Take<T>(s: seq<T>, n: nat): (r: seq<T>)
    ensures |r| == Min(n, |s|)
    ensures r <= s
  {
    if n <= |s| then s[..n] else s
  }

  /** The page a server holding `s` answers for a fetch at `offset` of at
      most `n` items: s[offset .. min(offset + n, |s|)]. */
  function Slice<T>(s: seq<T>, offset: nat, n: nat): (r: seq<T>)
    ensures |r| == Min(n, Available(|s|, offset))
    ensures forall i :: 0 <= i < |r| ==> r[i] == s[offset + i]
  {
    Take(Drop(s, offset), n)
  }

  /** What a whole paging run over `s` promises to deliver: everything from
      `offset` on when `limit` is 0, otherwise the first `limit` of those. */
  function Window<T>(s: seq<T>, offset: nat, limit: nat): (r: seq<T>)
    ensures limit == 0 ==> |r| == Available(|s|, offset)
    ensures limit > 0 ==> |r| == Min(limit, Available(|s|, offset))
    ensures forall i :: 0 <= i < |r| ==> r[i] == s[offset + i]
    ensures r <= Drop(s, offset)
  {
    if limit == 0 then Drop(s, offset) else Take(Drop(s, offset), limit)
  }

  /** Dropping twice is dropping once by the sum: the page at `offset + k`
      is the page at `k` of the stream that starts at `offset`. */
  lemma DropDrop<T>(s: seq<T>, a: nat, b: nat)
    ensures Drop(Drop(s, a), b) == Drop(s, a + b)
  {
  }

  /** One fetch of a paging run, the step both paging iterators repeat.
      The run wants `Window(s, start, total)`; it has seen the `k` first
      items of it and has not been stopped, so it fetches `Slice` at
      `start + k`. Then a page shorter than the page size means the stream
      is exhausted, and a page that reaches `total` completes the run once
      truncated to the rest of the allowance; otherwise the run has seen
      exactly `lim` more items, all still wanted. */
  lemma {:induction false} FetchStep<T>(s: seq<T>, start: nat, total: nat, lim: nat, seen: seq<T>)
    requires lim >= 1
    requires seen <= Window(s, start, total)
    requires total == 0 || |seen| < total
    ensures var p := Slice(s, start + |seen|, lim);
      && (|p| < lim && (total == 0 || |seen| + |p| < total) ==> seen + p == Window(s, start, total))
      && (total != 0 && |seen| + |p| >= total ==> seen + p[..total - |seen|] == Window(s, start, total))
      && (|p| == lim && (total == 0 || |seen| + |p| < total) ==> seen + p <= Window(s, start, total))
  {
    var d := Drop(s, start);
    var k := |seen|;
    var p := Slice(s, start + k, lim);
    assert seen == d[..k] by {
      assert seen <= d;
    }
    assert p == Take(d[k..], lim) by {
      DropDrop(s, start, k);
      assert Drop(d, k) == d[k..];
    }
    assert seen + p == d[..k + |p|] by {
      TakeAfterPrefix(d, k, lim);
    }
    assert Window(s, start, total) == if total == 0 then d else Take(d, total);
    if total != 0 && k + |p| >= total {
      assert seen + p[..total - k] == d[..total] by {
        assert seen + p[..total - k] == (seen + p)[..total];
      }
    }
  }

  /** The first `k` items of `d` followed by at most `n` items from
      position `k` on are the first `k + min(n, |d| - k)` items of `d`. */
  lemma TakeAfterPrefix<T>(d: seq<T>, k: nat, n: nat)
    requires k <= |d|
    ensures d[..k] + Take(d[k..], n) == d[..k + Min(n, |d| - k)]
  {
    var m := Min(n, |d| - k);
    assert Take(d[k..], n) == d[k..k + m];
    assert d[..k + m] == d[..k] + d[k..k + m];
  }

  /** A run without a limit and with the maximum page size makes
      `Available / MaxQueryLimit + 1` fetches: every full page is followed by
      another fetch, and the short page that ends the run may be empty. */
  lemma FetchCountUnlimited(available: nat, fetches: nat, seen: nat, last: nat)
    requires seen == (fetches - 1) * MaxQueryLimit && fetches >= 1
    requires last < MaxQueryLimit && seen + last == available
    ensures fetches == available / MaxQueryLimit + 1
  {
  }

  /** The decision both paging iterators take after a fetch of `page`,
      with `seen` items returned so far, a caller's limit `total` (0 for
      none) and page size `lim`: the run stops when the page is short or
      reaches `total`, and a page that reaches `total` is truncated to the
      rest of the allowance. Yields the new buffer and the stop flag. */
  function Settle<T>(page: seq<T>, seen: nat, total: nat, lim: nat): (r: (seq<T>, bool))
    requires total == 0 || seen <= total
    ensures r.1 <==> |page| < lim || (total != 0 && seen + |page| >= total)
    ensures r.0 <= page
    ensures !r.1 ==> r.0 == page
    ensures !(total != 0 && seen + |page| >= total) ==> r.0 == page
    ensures total != 0 ==> |r.0| == Min(|page|, total - seen)
  {
    var limitReached := total != 0 && seen + |page| >= total;
    (if limitReached then page[..total - seen] else page, |page| < lim || limitReached)
  }

  /** A settled fetch carries a run with page size `PageSize(total)`
      forward: the run stays a prefix of its window, is all of it once
      stopped, and an unlimited run counts one fetch per full page. */
  lemma {:induction false} SettlePage<T>(s: seq<T>, start: nat, total: nat, seen: seq<T>, fetches: nat,
                                         page: seq<T>, buffer: seq<T>, stop: bool)
    requires seen <= Window(s, start, total) && (total == 0 || |seen| < total)
    requires total == 0 ==> |seen| == fetches * MaxQueryLimit
    requires page == Slice(s, start + |seen|, PageSize(total))
    requires (buffer, stop) == Settle(page, |seen|, total, PageSize(total))
    ensures seen + buffer <= Window(s, start, total)
    ensures stop ==> seen + buffer == Window(s, start, total)
    ensures !stop ==> total == 0 || |seen| + |buffer| < total
    ensures total == 0 && !stop ==> |seen| + |buffer| == (fetches + 1) * MaxQueryLimit
    ensures total == 0 && stop ==> fetches + 1 == Available(|s|, start) / MaxQueryLimit + 1
  {
    FetchStep(s, start, total, PageSize(total), seen);
    if total == 0 && stop {
      assert seen + buffer == Window(s, start, total);
      FetchCountUnlimited(Available(|s|, start), fetches + 1, |seen|, |buffer|);
    }
  }
}
