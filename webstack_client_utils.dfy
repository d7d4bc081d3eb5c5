/** The REST paging helpers of the web client: an iterator that turns one
    large list query into bounded page fetches, and a list-like result that
    holds one page and fetches the rest on demand. The web server is
    modelled as a paged query function whose dataset is fixed for given
    positional arguments; a page fetch answers the slice of that dataset at
    the requested offset and limit. */
module WebstackClientUtils {
  import opened Wrappers
  import opened Paging
  import PyList

  /** A positional argument of a query function: the client object that a
      decorated method is bound to, or an ordinary value. */
  datatype Arg = Client(id: nat) | Value(text: string)

  /** A raw paged query function of the web client. For given positional
      arguments it pages over a fixed server-side dataset, `rows(args)`. */
  datatype PagedFunction<T> = PagedFunction(rows: seq<Arg> -> seq<T>)

  /** A query function as handed to an iterator: a raw one, or the wrapper a
      decorator made, bound to a client and tagged with the raw function it
      wraps (`inner`). */
  datatype QueryFunction<F> = Raw(fn: F) | Decorated(inner: F, client: nat)

  /** The function an iterator pages on and the positional arguments it
      passes: a decorated wrapper is unwrapped to its inner function, and the
      client it is bound to becomes the first argument. */
  function Target<F>(query: QueryFunction<F>, args: seq<Arg>): (r: (F, seq<Arg>))
    ensures query.Raw? ==> r.0 == query.fn && r.1 == args
    ensures query.Decorated? ==>
      r.0 == query.inner && |r.1| == |args| + 1 && r.1[0] == Client(query.client) && r.1[1..] == args
  {
    match query
    case Raw(fn) => (fn, args)
    case Decorated(inner, client) => (inner, [Client(client)] + args)
  }

  /** The `offset` and `limit` keyword arguments as the caller gave them
      (None: not given). */
  datatype RestKwargs = RestKwargs(offset: Option<nat>, limit: Option<nat>)

  /** The `offset` and `limit` keyword arguments passed to the query function. */
  datatype RestOptions = RestOptions(offset: nat, limit: nat)

  function OrZero(x: Option<nat>): nat
  {
    if x.Some? then x.value else 0
  }

  /** `kwargs.setdefault('offset', 0)` and `kwargs.setdefault('limit', 0)` */
  function WithDefaults(kwargs: RestKwargs): (o: RestOptions)
    ensures kwargs.offset == None ==> o.offset == 0
    ensures kwargs.limit == None ==> o.limit == 0
    ensures kwargs.offset.Some? ==> o.offset == kwargs.offset.value
    ensures kwargs.limit.Some? ==> o.limit == kwargs.limit.value
  {
    RestOptions(OrZero(kwargs.offset), OrZero(kwargs.limit))
  }

  /** The meta data of a REST list response. */
  datatype RestMeta = RestMeta(totalCount: int, limit: int, offset: int)

  /** A REST list response: the page of items and its meta data. */
  datatype RestPage<T> = RestPage(items: seq<T>, meta: RestMeta)

  /** The server's answer to one call of a paged query function: the slice
      of its dataset at the requested offset and limit, with the size of the
      whole dataset and the requested limit and offset as meta data. */
  function Fetch<T>(fn: PagedFunction<T>, args: seq<Arg>, options: RestOptions): (page: RestPage<T>)
    ensures page.items == Slice(fn.rows(args), options.offset, options.limit)
    ensures page.meta == RestMeta(|fn.rows(args)|, options.limit, options.offset)
  {
    var rows := fn.rows(args);
    RestPage(Slice(rows, options.offset, options.limit), RestMeta(|rows|, options.limit, options.offset))
  }

  /** Converts one large REST query into a forward-only stream of items,
      fetched one bounded page at a time. */
  class QueryIterator<T> {
    const queryFunction: PagedFunction<T>
    const args: seq<Arg>
    var kwargs: RestOptions     // offset advances after each fetch; limit is the page size
    var items: seq<T>           // internal buffer of fetched, not yet returned items
    var shouldStop: bool        // no further fetch is needed
    const totalLimit: nat       // the number of items the caller asked for, 0 for no limit
    var count: nat              // the number of items returned so far
    var totalCount: Option<int> // the number of items the server holds, once known

    ghost const start: nat      // the offset the caller asked for
    ghost var Yielded: seq<T>   // the items returned so far, in order
    ghost var Fetches: nat      // the number of page fetches so far

    /** The dataset the query function pages over. */
    ghost function Rows(): seq<T>
    {
      queryFunction.rows(args)
    }

    /** What the whole run delivers: the wanted window of the dataset. */
    ghost function Expected(): seq<T>
    {
      Window(Rows(), start, totalLimit)
    }

    /** The run has ended: every further call signals end of sequence. */
    ghost predicate Ended()
      reads this
    {
      items == [] && shouldStop
    }

    /** How far the run has got: `yielded` returned, `buffer` fetched and
        not yet returned, the run stopped or not, the next fetch's offset
        and the number of fetches so far. */
    ghost predicate Progress(yielded: seq<T>, buffer: seq<T>, stop: bool, offset: nat, fetches: nat)
    {
      && yielded + buffer <= Expected()
      && (stop ==> yielded + buffer == Expected())
      && (!stop ==> offset == start + |yielded| + |buffer|
                    && (totalLimit == 0 || |yielded| + |buffer| < totalLimit))
      && (totalLimit == 0 && !stop ==> |yielded| + |buffer| == fetches * MaxQueryLimit)
      && (totalLimit == 0 && stop ==> fetches == Available(|Rows()|, start) / MaxQueryLimit + 1)
    }

    ghost predicate Valid()
      reads this
    {
      && kwargs.limit == PageSize(totalLimit)
      && count == |Yielded|
      && Progress(Yielded, items, shouldStop, kwargs.offset, Fetches)
      && (totalCount.Some? <==> Fetches > 0)
      && (totalCount.Some? ==> totalCount.value == |Rows()|)
    }

    constructor (query: QueryFunction<PagedFunction<T>>, args: seq<Arg>, userKwargs: RestKwargs)
      ensures Valid()
      ensures (queryFunction, this.args) == Target(query, args)
      ensures start == OrZero(userKwargs.offset) && totalLimit == OrZero(userKwargs.limit)
      ensures kwargs == RestOptions(start, PageSize(totalLimit))
      ensures items == [] && !shouldStop && count == 0 && totalCount == None
      ensures Yielded == [] && Fetches == 0
    {
      var target := Target(query, args);
      queryFunction := target.0;
      this.args := target.1;
      var given := WithDefaults(userKwargs);
      start := given.offset;
      totalLimit := given.limit;
      kwargs := RestOptions(given.offset, PageSize(given.limit));
      items := [];
      shouldStop := false;
      count := 0;
      totalCount := None;
      Yielded := [];
      Fetches := 0;
    }

    /** Returns the next item, or None for end of sequence. A non-empty
        buffer is popped without fetching; an empty buffer after the run was
        stopped ends the sequence; otherwise one page is fetched and the call
        starts over. */
    method Next() returns (r: Option<T>)
      requires Valid()
      modifies this
      decreases if items != [] || shouldStop then 0 else 1
      ensures Valid()
      ensures old(items) != [] ==>
        && r == Some(old(items)[0]) && items == old(items)[1..] && count == old(count) + 1
        && kwargs == old(kwargs) && shouldStop == old(shouldStop)
        && totalCount == old(totalCount) && Fetches == old(Fetches)
      ensures old(Ended()) ==> r == None && unchanged(this)
      ensures old(items) == [] && !old(shouldStop) ==>
        && Fetches == old(Fetches) + 1 && totalCount == Some(|Rows()|)
        && kwargs.offset == old(kwargs.offset) + |Slice(Rows(), old(kwargs.offset), kwargs.limit)|
      ensures old(items) == [] && !old(shouldStop) ==>
        var s := Settle(Slice(Rows(), old(kwargs.offset), kwargs.limit), old(count), totalLimit, kwargs.limit);
        && shouldStop == s.1
        && (s.0 == [] ==> r == None && items == [])
        && (s.0 != [] ==> r == Some(s.0[0]) && items == s.0[1..])
      ensures r.Some? ==> Yielded == old(Yielded) + [r.value]
      ensures r.None? ==> Ended() && Yielded == old(Yielded) == Expected()
    {
      if |items| != 0 {
        r := Some(items[0]);
        items := items[1..];
        count := count + 1;
        Yielded := Yielded + [r.value];
        return;
      }
      if shouldStop {
        return None;
      }
      FetchPage();
      r := Next();
    }

    /** The fetch inside `Next`: one page at the current offset becomes the
        buffer, the offset advances by the page's length, a page shorter than
        the page size stops the run, and a page that reaches the caller's
        limit stops it with the buffer truncated to the rest of the
        allowance. */
    method FetchPage()
      requires Valid() && items == [] && !shouldStop
      modifies this`items, this`totalCount, this`kwargs, this`Fetches, this`shouldStop
      ensures Valid() && Yielded == old(Yielded) && count == old(count)
      ensures items == [] ==> shouldStop
      ensures Fetches == old(Fetches) + 1 && totalCount == Some(|Rows()|)
      ensures kwargs == old(kwargs).(offset := old(kwargs.offset) + |Slice(Rows(), old(kwargs.offset), kwargs.limit)|)
      ensures (items, shouldStop) == Settle(Slice(Rows(), old(kwargs.offset), kwargs.limit), old(count), totalLimit, kwargs.limit)
    {
      var page := Fetch(queryFunction, args, kwargs);
      var offset := kwargs.offset + |page.items|;
      // Settle is projected twice rather than bound to a tuple local: the
      // two projections keep this method's proof obligation small.
      var buffer, stop := Settle(page.items, count, totalLimit, kwargs.limit).0, Settle(page.items, count, totalLimit, kwargs.limit).1;
      SettlePage(Rows(), start, totalLimit, Yielded, Fetches, page.items, buffer, stop);
      items, totalCount, shouldStop, kwargs, Fetches := buffer, Some(page.meta.totalCount), stop, kwargs.(offset := offset), Fetches + 1;
    }
  }

  /** `[item for item in iterator]`: drains the iterator, returning the
      items it still had to deliver. */
  method Collect<T>(it: QueryIterator<T>) returns (all: seq<T>)
    requires it.Valid()
    modifies it
    ensures it.Valid() && it.Ended()
    ensures old(it.Yielded) + all == it.Expected()
  {
    all := [];
    while true
      invariant it.Valid()
      invariant it.Yielded == old(it.Yielded) + all
      decreases |it.Expected()| - |it.Yielded|
    {
      var r := it.Next();
      if r.None? {
        break;
      }
      all := all + [r.value];
    }
  }

  /** `QueryResult.__len__` of a result that is not materialised, from the
      caller's limit and offset and the server's total count. */
  function LengthUnfetched(limit: nat, offset: nat, totalCount: int): (n: nat)
    ensures n <= Max(0, totalCount - offset)
    ensures limit > 0 ==> n <= limit
  {
    if limit == 0 || offset + limit >= totalCount then Max(0, totalCount - offset) else limit
  }

  /** Against a server holding `rows`, that length is the length of the
      window a full paging run delivers. */
  lemma LengthUnfetchedIsWindowLength<T>(rows: seq<T>, offset: nat, limit: nat)
    ensures LengthUnfetched(limit, offset, |rows|) == |Window(rows, offset, limit)|
  {
  }

  /** What one pass of `QueryResult.__getitem__` on a result that is not
      materialised decides. */
  datatype Lookup = Hit(position: nat) | Refetch(offset: nat, index: nat) | OutOfRange

  /** One pass of `__getitem__` with Python's list index rules: the index
      is read as Python reads list indexes (a negative one shifted by the
      length), an index outside the list is refused, an absolute offset
      within the cached page is served from it, and any other refetches the
      page at that offset and retries with the shifted index. */
  function LookupStep(len: nat, userOffset: nat, currentOffset: nat, index: int): (r: Lookup)
    ensures r.OutOfRange? <==> index < -(len as int) || len <= index
    ensures r.Hit? ==> var i := PyList.Normalize(len, index);
      0 <= i < len && currentOffset + r.position == userOffset + i && r.position < MaxQueryLimit
    ensures r.Refetch? ==>
      r.index == PyList.Normalize(len, index) && r.index < len && r.offset == userOffset + r.index
    ensures !r.OutOfRange? ==>
      (r.Hit? <==> currentOffset <= userOffset + PyList.Normalize(len, index) < currentOffset + MaxQueryLimit)
  {
    var i := PyList.Normalize(len, index);
    if i < 0 || i >= len then OutOfRange
    else if currentOffset <= userOffset + i < currentOffset + MaxQueryLimit then Hit(userOffset + i - currentOffset)
    else Refetch(userOffset + i, i)
  }

  /** A refetch moves the cache to the wanted offset, so the retry is served
      from the first position of the new page: `__getitem__` recurses at
      most once. */
  lemma RefetchThenHit(len: nat, userOffset: nat, currentOffset: nat, index: int)
    requires LookupStep(len, userOffset, currentOffset, index).Refetch?
    ensures var r := LookupStep(len, userOffset, currentOffset, index);
      LookupStep(len, userOffset, r.offset, r.index) == Hit(0)
  {
  }

  /** What one pass of `__getitem__` decides as the source is written. */
  datatype LookupAsWritten = HitAt(position: int) | RefetchAt(offset: int, index: int) | IndexOutOfRange

  /** One pass of `QueryResult.__getitem__` as written: after the shift by
      the length, only an index at or above the length is refused, so an
      index below minus the length goes on to a refetch at an offset before
      the caller's, and the retry shifts it once more. */
  function LookupStepAsWritten(len: nat, userOffset: nat, currentOffset: int, index: int): (r: LookupAsWritten)
    ensures r.IndexOutOfRange? <==> len <= index
    ensures r.HitAt? ==> currentOffset + r.position == userOffset + PyList.Normalize(len, index)
    ensures r.RefetchAt? ==> r.index == PyList.Normalize(len, index) && r.offset == userOffset + r.index
    ensures !r.IndexOutOfRange? ==>
      (r.HitAt? <==> currentOffset <= userOffset + PyList.Normalize(len, index) < currentOffset + MaxQueryLimit)
  {
    var i := if index < 0 then len + index else index;
    if i >= len then IndexOutOfRange
    else if currentOffset <= userOffset + i < currentOffset + MaxQueryLimit then HitAt(userOffset + i - currentOffset)
    else RefetchAt(userOffset + i, i)
  }

  /** For an index that Python's list accepts or refuses at the top (at
      or above the length), the pass as written decides what the corrected
      pass decides; the two part only below minus the length. */
  lemma AsWrittenAgreesAboveMinusLength(len: nat, userOffset: nat, currentOffset: nat, index: int)
    ensures var w, c := LookupStepAsWritten(len, userOffset, currentOffset, index), LookupStep(len, userOffset, currentOffset, index);
      && (-(len as int) <= index ==>
            && (w.IndexOutOfRange? <==> c.OutOfRange?)
            && (c.Hit? ==> w == HitAt(c.position))
            && (c.Refetch? ==> w == RefetchAt(c.offset, c.index)))
      && (index < -(len as int) ==> c.OutOfRange? && !w.IndexOutOfRange?)
  {
  }

  /** A result over the items 5.. of a five-item dataset is empty, and
      Python's list raises IndexError for index -1; as written, the first
      pass refetches the page at offset 4, the retry is served from its first
      position, and `result[-1]` answers the dataset's item 4, which is not in
      the result at all. */
  lemma NegativeIndexAsWritten<T>(rows: seq<T>)
    requires |rows| == 5
    ensures LengthUnfetched(0, 5, |rows|) == 0
    ensures LookupStepAsWritten(0, 5, 5, -1) == RefetchAt(4, -1)
    ensures LookupStepAsWritten(0, 5, 4, -1) == HitAt(0)
    ensures Slice(rows, 4, MaxQueryLimit)[0] == rows[4]
    ensures LookupStep(0, 5, 5, -1) == OutOfRange
    ensures PyList.Get(Window(rows, 5, 0), -1) == Err(IndexError)
  {
  }

  /** How iterating a result proceeds: over the materialised list, or by a
      fresh paging iterator. */
  datatype Iteration<T, I> = OverList(items: seq<T>) | OverPages(pages: I)

  /** The display of a result: a placeholder until it is materialised, the
      listing of its items afterwards. */
  datatype Shown<T> = Placeholder(text: string) | Listing(items: seq<T>)

  /** Wraps a REST list query. Construction fetches one page, which then
      serves as a one-page cache for indexing; iteration pages through the
      whole query; `FetchAll` materialises it into the list storage, after
      which it behaves as a plain list. */
  class QueryResult<T(==)> {
    const queryFunction: PagedFunction<T>
    const args: seq<Arg>
    var kwargs: RestOptions     // the keyword arguments of the next call
    var meta: RestMeta          // the meta data of the cached page
    var items: seq<T>           // the cached page
    const limit: nat            // the limit the caller asked for
    const offset: nat           // the offset the caller asked for
    var currentOffset: nat      // the offset of the cached page
    var fetchedAll: bool        // the list storage holds the complete result
    var list: seq<T>            // the list storage

    /** The dataset the query function pages over. */
    ghost function Rows(): seq<T>
    {
      queryFunction.rows(args)
    }

    ghost predicate Valid()
      reads this
    {
      && items == Slice(Rows(), currentOffset, MaxQueryLimit)
      && meta == RestMeta(|Rows()|, MaxQueryLimit, currentOffset)
      && (!fetchedAll ==> list == [])
    }

    /** The list this result stands for: the materialised list, or the
      window of the dataset a full paging run delivers. */
    ghost function Contents(): seq<T>
      reads this
    {
      if fetchedAll then list else Window(Rows(), offset, limit)
    }

    constructor (queryFunction: PagedFunction<T>, args: seq<Arg>, userKwargs: RestKwargs)
      ensures Valid() && !fetchedAll
      ensures this.queryFunction == queryFunction && this.args == args
      ensures offset == OrZero(userKwargs.offset) && limit == OrZero(userKwargs.limit)
      ensures currentOffset == offset && kwargs == RestOptions(offset, MaxQueryLimit)
      ensures Contents() == Window(queryFunction.rows(args), offset, limit)
    {
      this.queryFunction := queryFunction;
      this.args := args;
      var given := WithDefaults(userKwargs);
      kwargs := given;
      limit := given.limit;
      offset := given.offset;
      meta := RestMeta(0, 0, 0);
      items := [];
      currentOffset := 0;
      fetchedAll := false;
      list := [];
      new;
      APICall(offset);
      fetchedAll := false;
    }

    /** `_APICall`: one page fetch at `pageOffset` with the maximum page
        size, which becomes the cache. */
    method APICall(pageOffset: nat)
      modifies this`kwargs, this`items, this`meta, this`currentOffset
      ensures kwargs == RestOptions(pageOffset, MaxQueryLimit) && currentOffset == pageOffset
      ensures items == Slice(Rows(), pageOffset, MaxQueryLimit)
      ensures meta == RestMeta(|Rows()|, MaxQueryLimit, pageOffset)
    {
      kwargs := kwargs.(offset := pageOffset, limit := MaxQueryLimit);
      var page := Fetch(queryFunction, args, kwargs);
      items := page.items;
      meta := page.meta;
      currentOffset := pageOffset;
    }

    /** The `totalCount` property: the server's total, from the cached page. */
    function TotalCount(): (n: int)
      reads this
      requires Valid()
      ensures n == |Rows()|
    {
      meta.totalCount
    }

    /** The `limit` property: the limit of the cached page's fetch, which is
        the maximum page size and not the caller's limit. */
    function MetaLimit(): (n: int)
      reads this
      requires Valid()
      ensures n == MaxQueryLimit
    {
      meta.limit
    }

    /** The `offset` property: the offset of the cached page. */
    function MetaOffset(): (n: int)
      reads this
      requires Valid()
      ensures n == currentOffset
    {
      meta.offset
    }

    /** `__len__` */
    function Length(): (n: nat)
      reads this
      requires Valid()
      ensures n == |Contents()|
    {
      if fetchedAll then |list|
      else
        LengthUnfetchedIsWindowLength(Rows(), offset, limit);
        LengthUnfetched(limit, offset, TotalCount())
    }

    /** `__repr__` */
    function Show(): (r: Shown<T>)
      reads this
      ensures r.Listing? <==> fetchedAll
      ensures r.Listing? ==> r.items == Contents()
    {
      if fetchedAll then Listing(list) else Placeholder("<Query result object>")
    }

    /** `__getitem__`: Python list indexing of the result. A result that is
        not materialised answers from its cached page, refetching the page
        at the wanted offset when it is not in the cache; the result it
        stands for does not change. */
    method GetItem(index: int) returns (r: Result<T>)
      requires Valid()
      modifies this`kwargs, this`items, this`meta, this`currentOffset
      decreases if !fetchedAll && LookupStep(Length(), offset, currentOffset, index).Refetch? then 1 else 0
      ensures Valid() && Contents() == old(Contents())
      ensures r == PyList.Get(old(Contents()), index)
      ensures old(fetchedAll) ==> unchanged(this)
      ensures !old(fetchedAll) ==> var step := LookupStep(old(Length()), offset, old(currentOffset), index);
        && (step.Refetch? ==> currentOffset == step.offset)
        && (!step.Refetch? ==> unchanged(this))
    {
      if fetchedAll {
        return PyList.Get(list, index);
      }
      var len := Length();
      match LookupStep(len, offset, currentOffset, index)
      case OutOfRange =>
        r := Err(IndexError);
      case Hit(position) =>
        r := Ok(items[position]);
      case Refetch(pageOffset, shifted) =>
        RefetchThenHit(len, offset, currentOffset, index);
        APICall(pageOffset);
        r := GetItem(shifted);
    }

    /** `__iter__`: the materialised list, or a fresh iterator over the
        whole query, built once the caller's offset and limit are restored
        in the keyword arguments. */
    method Iter() returns (r: Iteration<T, QueryIterator<T>>)
      requires Valid()
      modifies this`kwargs
      ensures Valid() && Contents() == old(Contents())
      ensures old(fetchedAll) ==> r == OverList(list) && unchanged(this)
      ensures !old(fetchedAll) ==>
        && r.OverPages? && fresh(r.pages)
        && r.pages.Valid() && r.pages.Yielded == [] && r.pages.Expected() == Contents()
        && kwargs == RestOptions(offset, limit)
    {
      if fetchedAll {
        return OverList(list);
      }
      kwargs := RestOptions(offset, limit);
      var pages := new QueryIterator(Raw(queryFunction), args, RestKwargs(Some(kwargs.offset), Some(kwargs.limit)));
      r := OverPages(pages);
    }

    /** `FetchAll`: materialises the result by draining a fresh iterator over
        the whole query into the list storage. A second call changes nothing
        and fetches nothing. */
    method FetchAll()
      requires Valid()
      modifies this`kwargs, this`list, this`fetchedAll
      ensures Valid() && fetchedAll && list == old(Contents()) && Contents() == old(Contents())
      ensures old(fetchedAll) ==> unchanged(this)
      ensures !old(fetchedAll) ==> kwargs == RestOptions(offset, limit)
    {
      if fetchedAll {
        return;
      }
      kwargs := RestOptions(offset, limit);
      var pages := new QueryIterator(Raw(queryFunction), args, RestKwargs(Some(kwargs.offset), Some(kwargs.limit)));
      var all := Collect(pages);
      list := all;
      fetchedAll := true;
    }

    // The list operations below materialise the result with FetchAll and
    // then apply the plain list operation to the list storage.

    /** `__setitem__` */
    method SetItem(index: int, item: T) returns (r: Result<()>)
      requires Valid()
      modifies this`kwargs, this`list, this`fetchedAll
      ensures Valid() && fetchedAll
      ensures match PyList.SetItem(old(Contents()), index, item)
        case Ok(s) => r == Ok(()) && list == s
        case Err(e) => r == Err(e) && list == old(Contents())
    {
      FetchAll();
      match PyList.SetItem(list, index, item)
      case Ok(s) =>
        list := s;
        r := Ok(());
      case Err(e) =>
        r := Err(e);
    }

    /** `append` */
    method Append(item: T)
      requires Valid()
      modifies this`kwargs, this`list, this`fetchedAll
      ensures Valid() && fetchedAll && list == old(Contents()) + [item]
    {
      FetchAll();
      list := list + [item];
    }

    /** `extend`, and `+=` (`__iadd__`), which extends and returns the result itself */
    method Extend(more: seq<T>)
      requires Valid()
      modifies this`kwargs, this`list, this`fetchedAll
      ensures Valid() && fetchedAll && list == old(Contents()) + more
    {
      FetchAll();
      list := list + more;
    }

    /** `insert` */
    method Insert(index: int, item: T)
      requires Valid()
      modifies this`kwargs, this`list, this`fetchedAll
      ensures Valid() && fetchedAll && list == PyList.Insert(old(Contents()), index, item)
    {
      FetchAll();
      list := PyList.Insert(list, index, item);
    }

    /** `index`, whose missing end means the length */
    method Index(item: T, start: int, end: Option<int>) returns (r: Result<nat>)
      requires Valid()
      modifies this`kwargs, this`list, this`fetchedAll
      ensures Valid() && fetchedAll && list == old(Contents())
      ensures r == PyList.Index(list, item, start, if end.Some? then end.value else |list|)
    {
      FetchAll();
      var stop := if end.Some? then end.value else Length();
      r := PyList.Index(list, item, start, stop);
    }

    /** `pop` */
    method Pop() returns (r: Result<T>)
      requires Valid()
      modifies this`kwargs, this`list, this`fetchedAll
      ensures Valid() && fetchedAll
      ensures match PyList.Pop(old(Contents()))
        case Ok(p) => r == Ok(p.0) && list == p.1
        case Err(e) => r == Err(e) && list == old(Contents())
    {
      FetchAll();
      match PyList.Pop(list)
      case Ok(p) =>
        list := p.1;
        r := Ok(p.0);
      case Err(e) =>
        r := Err(e);
    }

    /** `count` */
    method Count(item: T) returns (n: nat)
      requires Valid()
      modifies this`kwargs, this`list, this`fetchedAll
      ensures Valid() && fetchedAll && list == old(Contents())
      ensures n == multiset(old(Contents()))[item]
    {
      FetchAll();
      n := PyList.Count(list, item);
    }

    /** `remove` */
    method Remove(item: T) returns (r: Result<()>)
      requires Valid()
      modifies this`kwargs, this`list, this`fetchedAll
      ensures Valid() && fetchedAll
      ensures match PyList.Remove(old(Contents()), item)
        case Ok(s) => r == Ok(()) && list == s
        case Err(e) => r == Err(e) && list == old(Contents())
    {
      FetchAll();
      match PyList.Remove(list, item)
      case Ok(s) =>
        list := s;
        r := Ok(());
      case Err(e) =>
        r := Err(e);
    }

    /** `reverse` */
    method Reverse()
      requires Valid()
      modifies this`kwargs, this`list, this`fetchedAll
      ensures Valid() && fetchedAll && list == PyList.Reverse(old(Contents()))
    {
      FetchAll();
      list := PyList.Reverse(list);
    }

    /** `+` (`__add__`): a new list; the result itself is only materialised. */
    method Add(more: seq<T>) returns (r: seq<T>)
      requires Valid()
      modifies this`kwargs, this`list, this`fetchedAll
      ensures Valid() && fetchedAll && list == old(Contents())
      ensures r == old(Contents()) + more
    {
      FetchAll();
      r := list + more;
    }

    /** `reversed(...)` (`__reversed__`), as the sequence it yields */
    method Reversed() returns (r: seq<T>)
      requires Valid()
      modifies this`kwargs, this`list, this`fetchedAll
      ensures Valid() && fetchedAll && list == old(Contents())
      ensures r == PyList.Reverse(old(Contents()))
    {
      FetchAll();
      r := PyList.Reverse(list);
    }

    /** `in` (`__contains__`) */
    method Contains(item: T) returns (b: bool)
      requires Valid()
      modifies this`kwargs, this`list, this`fetchedAll
      ensures Valid() && fetchedAll && list == old(Contents())
      ensures b <==> item in old(Contents())
    {
      FetchAll();
      b := item in list;
    }

    /** `del result[index]` (`__delitem__`) */
    method DelItem(index: int) returns (r: Result<()>)
      requires Valid()
      modifies this`kwargs, this`list, this`fetchedAll
      ensures Valid() && fetchedAll
      ensures match PyList.DelItem(old(Contents()), index)
        case Ok(s) => r == Ok(()) && list == s
        case Err(e) => r == Err(e) && list == old(Contents())
    {
      FetchAll();
      match PyList.DelItem(list, index)
      case Ok(s) =>
        list := s;
        r := Ok(());
      case Err(e) =>
        r := Err(e);
    }

    /** `==` against another result, which is materialised too */
    method Equals(other: QueryResult<T>) returns (b: bool)
      requires Valid() && other.Valid()
      modifies this`kwargs, this`list, this`fetchedAll, other`kwargs, other`list, other`fetchedAll
      ensures Valid() && other.Valid() && fetchedAll && other.fetchedAll
      ensures list == old(Contents()) && other.list == old(other.Contents())
      ensures b <==> old(Contents()) == old(other.Contents())
    {
      FetchAll();
      other.FetchAll();
      b := list == other.list;
    }

    /** `==` against a plain list */
    method EqualsList(other: seq<T>) returns (b: bool)
      requires Valid()
      modifies this`kwargs, this`list, this`fetchedAll
      ensures Valid() && fetchedAll && list == old(Contents())
      ensures b <==> old(Contents()) == other
    {
      FetchAll();
      b := list == other;
    }

    /** `!=` against another result, which is materialised too */
    method NotEquals(other: QueryResult<T>) returns (b: bool)
      requires Valid() && other.Valid()
      modifies this`kwargs, this`list, this`fetchedAll, other`kwargs, other`list, other`fetchedAll
      ensures Valid() && other.Valid() && fetchedAll && other.fetchedAll
      ensures list == old(Contents()) && other.list == old(other.Contents())
      ensures b <==> old(Contents()) != old(other.Contents())
    {
      FetchAll();
      other.FetchAll();
      b := list != other.list;
    }
  }

  /** `UseQueryResult` (and `UseGraphQueryResult` alike): the decorator
      turns a raw query function into a method of the client answering with
      a list-like result. Bound to a client, the wrapper is tagged with the
      raw function as `inner`, which is what an iterator pages on. */
  function UseQueryResult<F>(fn: F, client: nat): (q: QueryFunction<F>)
    ensures q.Decorated? && q.inner == fn && q.client == client
    ensures forall args :: Target(q, args) == (fn, [Client(client)] + args)
  {
    Decorated(fn, client)
  }

  /** Calling the decorated method: a QueryResult over the raw function,
      with the bound client as first positional argument. */
  method CallUseQueryResult<T(==)>(fn: PagedFunction<T>, client: nat, args: seq<Arg>, kwargs: RestKwargs)
    returns (r: QueryResult<T>)
    ensures fresh(r) && r.Valid() && !r.fetchedAll
    ensures r.queryFunction == fn && r.args == [Client(client)] + args
    ensures r.Contents() == Window(fn.rows([Client(client)] + args), OrZero(kwargs.offset), OrZero(kwargs.limit))
  {
    r := new QueryResult(fn, [Client(client)] + args, kwargs);
  }
}
