/** The GraphQL paging helpers of the web client: an iterator that turns one
    large graph list query into bounded page fetches, a list-like result
    that holds one page and fetches the rest on demand, and the decorator
    that reshapes such a result into a graph response. The graph server is
    modelled by what it answers for a selection of top-level fields: the
    `__typename` of the operation's type when nothing (or `__typename`) is
    selected, the total count when `meta` is selected, and the slice of its
    dataset at the requested offset and page size when the list field is
    selected. */
module WebstackGraphClientUtils {
  import opened Wrappers
  import opened Paging
  import opened GraphQueryText
  import opened WebstackClientUtils
  import PyList

  /** The name of the list field of a graph query (`bodies`,
      `environments`, ...), which is neither `meta` nor `__typename`. */
  type KeyName = s: string | s != "meta" && s != "__typename" witness "items"

  /** A raw graph list query function: the name of its list field, the
      `__typename` of its return type, and, for given positional arguments,
      the fixed server-side dataset it pages over. */
  datatype GraphFunction<T> = GraphFunction(keyName: KeyName, typename: T, rows: seq<Arg> -> seq<T>)

  /** The `options` keyword argument as the caller gave it (None: not
      given): its `offset` and `first` entries. */
  datatype OptionsArg = OptionsArg(offset: Option<nat>, first: Option<nat>)

  /** The keyword arguments of a graph query as the caller gave them: its
      `options` and its `fields` (None: not given). */
  datatype GraphKwargs = GraphKwargs(options: Option<OptionsArg>, fields: Option<Fields>)

  /** The `options` passed to the query function. */
  datatype GraphOptions = GraphOptions(offset: nat, first: nat)

  /** Missing or None `options` become `{'offset': 0, 'first': 0}`, and a
      missing entry of given options becomes 0. */
  function WithOptionDefaults(options: Option<OptionsArg>): (o: GraphOptions)
    ensures options.None? ==> o == GraphOptions(0, 0)
    ensures options.Some? ==> o.offset == OrZero(options.value.offset) && o.first == OrZero(options.value.first)
  {
    if options.None? then GraphOptions(0, 0)
    else GraphOptions(OrZero(options.value.offset), OrZero(options.value.first))
  }

  /** The names of the top-level fields a selection selects. */
  function TopNames(f: Fields): (ns: seq<string>)
    ensures !Truthy(f) ==> ns == []
    ensures f.Names? ==> ns == f.names
    ensures f.Tree? ==> |ns| == |f.entries| && forall i :: 0 <= i < |ns| ==> ns[i] == f.entries[i].name
  {
    match f
    case Null => []
    case Names(ns) => ns
    case Tree(es) => seq(|es|, i requires 0 <= i < |es| => es[i].name)
  }

  /** A graph response to a list query, once decoded: its `meta.totalCount`,
      its `__typename` and its list field (None: the key is absent). */
  datatype GraphResponse<T> = GraphResponse(meta: Option<int>, typename: Option<T>, data: Option<seq<T>>)

  /** The server's answer to one call of a graph list query function. */
  function Respond<T>(fn: GraphFunction<T>, args: seq<Arg>, options: GraphOptions, fields: Fields): (r: GraphResponse<T>)
    ensures r.meta.Some? <==> "meta" in TopNames(fields)
    ensures r.typename.Some? <==> !Truthy(fields) || "__typename" in TopNames(fields)
    ensures r.data.Some? <==> fn.keyName in TopNames(fields)
  {
    var names := TopNames(fields);
    GraphResponse(
      if "meta" in names then Some(|fn.rows(args)|) else None,
      if !Truthy(fields) || "__typename" in names then Some(fn.typename) else None,
      if fn.keyName in names then Some(Slice(fn.rows(args), options.offset, options.first)) else None)
  }

  /** What a graph list query answers, as the paging code reads it: the
      `__typename` alone, a page of the list field, or nothing but meta
      data. */
  datatype Shape = TypenameShape | DataShape | MetaOnlyShape

  function ShapeOf<T>(fn: GraphFunction<T>, fields: Fields): (s: Shape)
    ensures s == DataShape ==> Truthy(fields)
    ensures s == MetaOnlyShape ==> Truthy(fields)
  {
    if !Truthy(fields) || "__typename" in TopNames(fields) then TypenameShape
    else if fn.keyName in TopNames(fields) then DataShape
    else MetaOnlyShape
  }

  /** The response's shape does not depend on the positional arguments or
      the options: the three branches of the paging code are decided by the
      selection alone. */
  lemma ShapeOfResponse<T>(fn: GraphFunction<T>, args: seq<Arg>, options: GraphOptions, fields: Fields)
    ensures var r := Respond(fn, args, options, fields);
      && (ShapeOf(fn, fields) == TypenameShape <==> r.typename.Some?)
      && (ShapeOf(fn, fields) == DataShape <==> r.typename.None? && r.data.Some?)
      && (ShapeOf(fn, fields) == MetaOnlyShape <==> r.typename.None? && r.data.None?)
  {
  }

  /** The `keyName` recorded after a fetch of the given shape. */
  function ShapeKey<T>(fn: GraphFunction<T>, shape: Shape): (k: Option<string>)
    ensures k == Some("__typename") <==> shape == TypenameShape
    ensures k.Some? && k.value != "__typename" <==> shape == DataShape
    ensures k.None? <==> shape == MetaOnlyShape
  {
    match shape
    case TypenameShape => Some("__typename")
    case DataShape => Some(fn.keyName)
    case MetaOnlyShape => None
  }

  /** What a whole paging run over a graph query delivers: the `__typename`
      alone, the wanted window of the dataset, or nothing. */
  function GraphExpected<T>(fn: GraphFunction<T>, args: seq<Arg>, fields: Fields, start: nat, limit: nat): (r: seq<T>)
    ensures ShapeOf(fn, fields) == TypenameShape ==> r == [fn.typename]
    ensures ShapeOf(fn, fields) == DataShape ==> r == Window(fn.rows(args), start, limit)
    ensures ShapeOf(fn, fields) == MetaOnlyShape ==> r == []
  {
    match ShapeOf(fn, fields)
    case TypenameShape => [fn.typename]
    case DataShape => Window(fn.rows(args), start, limit)
    case MetaOnlyShape => []
  }

  /** The position of the first entry called `name`, or the number of
      entries when there is none. */
  function NameIndex(es: seq<Entry>, name: string): (i: nat)
    ensures i <= |es|
    ensures i < |es| ==> es[i].name == name
    ensures forall j :: 0 <= j < i ==> es[j].name != name
  {
    if es == [] then 0 else if es[0].name == name then 0 else 1 + NameIndex(es[1..], name)
  }

  /** The selection asks for `meta { totalCount }`. */
  predicate SelectsTotalCount(f: Fields)
  {
    && f.Tree?
    && var i := NameIndex(f.entries, "meta");
    && i < |f.entries|
    && f.entries[i].sub.Tree?
    && NameIndex(f.entries[i].sub.entries, "totalCount") < |f.entries[i].sub.entries|
  }

  /** The selection is a dictionary whose `meta` entry, if any, is a
      dictionary too: the only selections on which `GraphQueryResult` can add
      `meta.totalCount` (on any other, `setdefault` raises). */
  predicate AcceptsTotalCount(f: Fields)
  {
    f.Tree? && var i := NameIndex(f.entries, "meta"); i == |f.entries| || f.entries[i].sub.Tree?
  }

  /** `fields.setdefault('meta', {})` followed by
      `fields['meta'].setdefault('totalCount', None)`, None where those
      raise. */
  function WithTotalCount(f: Fields): (r: Option<Fields>)
    ensures r.Some? <==> AcceptsTotalCount(f)
    ensures r.Some? ==> SelectsTotalCount(r.value) && "meta" in TopNames(r.value)
    ensures r.Some? ==>
      && r.value.Tree? && f.Tree?
      && |f.entries| <= |r.value.entries| <= |f.entries| + 1
      && forall j :: 0 <= j < |f.entries| && f.entries[j].name != "meta" ==> r.value.entries[j] == f.entries[j]
  {
    match f
    case Tree(es) =>
      var i := NameIndex(es, "meta");
      if i == |es| then
        var g := Tree(es + [Entry("meta", Tree([Entry("totalCount", Null)]))]);
        assert NameIndex(g.entries, "meta") == i by { NameIndexAppend(es, Entry("meta", Tree([Entry("totalCount", Null)])), "meta"); }
        assert TopNames(g)[i] == "meta";
        Some(g)
      else
        (match es[i].sub
         case Tree(ms) =>
           if NameIndex(ms, "totalCount") < |ms| then
             assert TopNames(f)[i] == "meta";
             Some(f)
           else
             var m := Entry("meta", Tree(ms + [Entry("totalCount", Null)]));
             var g := Tree(es[i := m]);
             assert NameIndex(g.entries, "meta") == i by { NameIndexUpdate(es, i, m, "meta"); }
             assert NameIndex(m.sub.entries, "totalCount") == |ms| by { NameIndexAppend(ms, Entry("totalCount", Null), "totalCount"); }
             assert TopNames(g)[i] == "meta";
             Some(g)
         case _ => None)
    case _ => None
  }

  lemma {:induction false} NameIndexAppend(es: seq<Entry>, e: Entry, name: string)
    requires NameIndex(es, name) == |es| && e.name == name
    ensures NameIndex(es + [e], name) == |es|
    decreases |es|
  {
    if es != [] {
      assert (es + [e])[1..] == es[1..] + [e];
      NameIndexAppend(es[1..], e, name);
    }
  }

  lemma {:induction false} NameIndexUpdate(es: seq<Entry>, i: nat, e: Entry, name: string)
    requires i < |es| && NameIndex(es, name) == i && e.name == name
    ensures NameIndex(es[i := e], name) == i
    decreases |es|
  {
    if i > 0 {
      assert es[i := e][1..] == es[1..][i - 1 := e];
      NameIndexUpdate(es[1..], i - 1, e, name);
    }
  }

  /** Adding `meta.totalCount` a second time changes nothing. */
  lemma WithTotalCountIdempotent(f: Fields)
    requires AcceptsTotalCount(f)
    ensures WithTotalCount(WithTotalCount(f).value) == WithTotalCount(f)
  {
    var g := WithTotalCount(f).value;
    var i := NameIndex(g.entries, "meta");
    assert g.entries[i].sub.Tree?;
  }

  /** The selection a `GraphQueryResult` stores: the caller's, with
      `meta.totalCount` added, when `fields` was given. */
  function StoredFields(fields: Option<Fields>): (r: Option<Fields>)
    requires fields.Some? ==> AcceptsTotalCount(fields.value)
    ensures r.Some? <==> fields.Some?
    ensures r.Some? ==> "meta" in TopNames(r.value) && Truthy(r.value)
  {
    if fields.Some? then WithTotalCount(fields.value) else None
  }

  /** The selection a call passes: the stored one, or the query function's
      default None when `fields` is absent from the keyword arguments. */
  function Sent(fields: Option<Fields>): (f: Fields)
    ensures fields.None? ==> !Truthy(f)
    ensures fields.Some? ==> f == fields.value
  {
    if fields.Some? then fields.value else Null
  }

  /** Converts one large graph list query into a forward-only stream of
      items, fetched one bounded page at a time. */
  class GraphQueryIterator<T> {
    const queryFunction: GraphFunction<T>
    const args: seq<Arg>
    var options: GraphOptions   // offset advances after each fetch; first is the page size
    const fields: Fields        // the selection, `{}` when not given
    var items: seq<T>           // internal buffer of fetched, not yet returned items
    var shouldStop: bool        // no further fetch is needed
    const totalLimit: nat       // the number of items the caller asked for, 0 for no limit
    var count: nat              // the number of items returned so far
    var totalCount: Option<int> // the number of items the server holds, once known
    var keyName: Option<string> // the response key the items came from, once known

    ghost const start: nat      // the offset the caller asked for
    ghost var Yielded: seq<T>   // the items returned so far, in order
    ghost var Fetches: nat      // the number of calls of the query function so far

    /** The dataset the query function pages over. */
    ghost function Rows(): seq<T>
    {
      queryFunction.rows(args)
    }

    function Shape(): Shape
    {
      ShapeOf(queryFunction, fields)
    }

    /** What the whole run delivers. */
    ghost function Expected(): seq<T>
    {
      GraphExpected(queryFunction, args, fields, start, totalLimit)
    }

    /** The run has ended: every further call signals end of sequence. A
        response with nothing but meta data ends the sequence without
        stopping the run, so such a run fetches again on every call. */
    ghost predicate Ended()
      reads this
    {
      items == [] && (shouldStop || Shape() == MetaOnlyShape)
    }

    /** How far the run has got: `yielded` returned, `buffer` fetched and
        not yet returned, the run stopped or not, the next fetch's offset
        and the number of fetches so far. */
    ghost predicate Progress(yielded: seq<T>, buffer: seq<T>, stop: bool, offset: nat, fetches: nat)
    {
      && yielded + buffer <= Expected()
      && (stop ==> yielded + buffer == Expected())
      && (!stop ==> offset == start + |yielded| + |buffer|
                    && (totalLimit == 0 || |yielded| + |buffer| < totalLimit))
      && (Shape() != DataShape && !stop ==> yielded == [] && buffer == [])
      && (Shape() == MetaOnlyShape ==> !stop)
      && (Shape() == DataShape && totalLimit == 0 && !stop ==>
            |yielded| + |buffer| == fetches * MaxQueryLimit)
      && (Shape() == DataShape && totalLimit == 0 && stop ==>
            fetches == Available(|Rows()|, start) / MaxQueryLimit + 1)
    }

    ghost predicate Valid()
      reads this
    {
      && options.first == PageSize(totalLimit)
      && count == |Yielded|
      && Progress(Yielded, items, shouldStop, options.offset, Fetches)
      && (totalCount.Some? <==> Fetches > 0 && "meta" in TopNames(fields))
      && (totalCount.Some? ==> totalCount.value == |Rows()|)
      && keyName == (if Fetches == 0 then None else ShapeKey(queryFunction, Shape()))
    }

    constructor (query: QueryFunction<GraphFunction<T>>, args: seq<Arg>, kwargs: GraphKwargs)
      ensures Valid()
      ensures (queryFunction, this.args) == Target(query, args)
      ensures fields == if kwargs.fields.Some? then kwargs.fields.value else Tree([])
      ensures var given := WithOptionDefaults(kwargs.options);
        start == given.offset && totalLimit == given.first
      ensures options == GraphOptions(start, PageSize(totalLimit))
      ensures items == [] && !shouldStop && count == 0 && totalCount == None && keyName == None
      ensures Yielded == [] && Fetches == 0
    {
      var target := Target(query, args);
      queryFunction := target.0;
      this.args := target.1;
      var given := WithOptionDefaults(kwargs.options);
      start := given.offset;
      totalLimit := given.first;
      options := GraphOptions(given.offset, PageSize(given.first));
      fields := if kwargs.fields.Some? then kwargs.fields.value else Tree([]);
      items := [];
      shouldStop := false;
      count := 0;
      totalCount := None;
      keyName := None;
      Yielded := [];
      Fetches := 0;
    }

    /** Returns the next item, or None for end of sequence. A non-empty
        buffer is popped without fetching; an empty buffer after the run was
        stopped ends the sequence; otherwise the query function is called,
        and the call either ends the sequence (nothing but meta data came
        back) or starts over with the new buffer. */
    method Next() returns (r: Option<T>)
      requires Valid()
      modifies this
      decreases if items != [] || shouldStop then 0 else 1
      ensures Valid()
      ensures old(items) != [] ==>
        && r == Some(old(items)[0]) && items == old(items)[1..] && count == old(count) + 1
        && options == old(options) && shouldStop == old(shouldStop) && keyName == old(keyName)
        && totalCount == old(totalCount) && Fetches == old(Fetches)
      ensures old(items) == [] && old(shouldStop) ==> r == None && unchanged(this)
      ensures old(items) == [] && !old(shouldStop) ==>
        Fetches == old(Fetches) + 1 && keyName == ShapeKey(queryFunction, Shape())
      ensures old(items) == [] && !old(shouldStop) && Shape() == DataShape ==>
        var s := Settle(Slice(Rows(), old(options.offset), options.first), old(count), totalLimit, options.first);
        && shouldStop == s.1
        && (s.0 == [] ==> r == None && items == [])
        && (s.0 != [] ==> r == Some(s.0[0]) && items == s.0[1..])
      ensures old(items) == [] && !old(shouldStop) && Shape() == TypenameShape ==>
        r == Some(queryFunction.typename) && items == [] && shouldStop
      ensures old(items) == [] && !old(shouldStop) && Shape() == MetaOnlyShape ==>
        r == None && items == [] && shouldStop == old(shouldStop)
      ensures r.Some? ==> Yielded == old(Yielded) + [r.value]
      ensures r.None? ==> Ended() && Yielded == old(Yielded) == Expected()
    {
      if |items| != 0 {
        var item := Pop();
        return Some(item);
      }
      if shouldStop {
        return None;
      }
      var ended := FetchPage();
      if ended {
        return None;
      }
      r := Next();
    }

    /** The buffer's first item, removed from the buffer and counted. */
    method Pop() returns (item: T)
      requires Valid() && items != []
      modifies this`items, this`count, this`Yielded
      ensures Valid()
      ensures item == old(items)[0] && items == old(items)[1..] && count == old(count) + 1
      ensures Yielded == old(Yielded) + [item]
    {
      item := items[0];
      items, count, Yielded := items[1..], count + 1, Yielded + [item];
      assert Yielded + items == old(Yielded + items);
    }

    /** The call of the query function inside `next`. The meta data becomes
        the total count. A `__typename` answer becomes a one-item buffer, a
        page of the list field becomes the buffer, and an answer with
        neither ends the sequence on the spot. The offset then advances by
        the buffer's length, a buffer shorter than the page size stops the
        run, and one that reaches the caller's limit stops it with the
        buffer truncated to the rest of the allowance. */
    method FetchPage() returns (ended: bool)
      requires Valid() && items == [] && !shouldStop
      modifies this`items, this`totalCount, this`options, this`Fetches, this`shouldStop, this`keyName
      ensures Valid() && Yielded == old(Yielded) && count == old(count)
      ensures ended <==> Shape() == MetaOnlyShape
      ensures ended ==> items == [] && options == old(options) && shouldStop == old(shouldStop)
      ensures !ended && items == [] ==> shouldStop
      ensures Fetches == old(Fetches) + 1 && keyName == ShapeKey(queryFunction, Shape())
      ensures totalCount == if "meta" in TopNames(fields) then Some(|Rows()|) else None
      ensures Shape() == TypenameShape ==>
        options == old(options).(offset := old(options.offset) + 1) && shouldStop && items == [queryFunction.typename]
      ensures Shape() == DataShape ==>
        && options == old(options).(offset := old(options.offset) + |Slice(Rows(), old(options.offset), options.first)|)
        && (items, shouldStop) == Settle(Slice(Rows(), old(options.offset), options.first), old(count), totalLimit, options.first)
    {
      var response := Respond(queryFunction, args, options, fields);
      ShapeOfResponse(queryFunction, args, options, fields);
      if response.meta.Some? {
        totalCount := Some(response.meta.value);
      }
      if response.typename.Some? {
        keyName := Some("__typename");
        TakePage([response.typename.value]);
      } else if response.data.None? {
        Fetches := Fetches + 1;
        keyName := ShapeKey(queryFunction, Shape());
        return true;
      } else {
        keyName := Some(queryFunction.keyName);
        TakePage(response.data.value);
      }
      ended := false;
    }

    /** The rest of `next`'s fetch, once a page is in hand: the offset
        advances by the page's length, a page shorter than the page size
        stops the run, and a page that reaches the caller's limit stops it
        with the buffer truncated to the rest of the allowance. */
    method TakePage(page: seq<T>)
      requires Shape() != MetaOnlyShape
      requires options.first == PageSize(totalLimit) && count == |Yielded|
      requires items == [] && !shouldStop && Yielded <= Expected()
      requires options.offset == start + |Yielded| && (totalLimit == 0 || |Yielded| < totalLimit)
      requires Shape() == TypenameShape ==> Yielded == [] && page == [queryFunction.typename]
      requires Shape() == DataShape ==> page == Slice(Rows(), options.offset, options.first)
      requires Shape() == DataShape && totalLimit == 0 ==> |Yielded| == Fetches * MaxQueryLimit
      requires totalCount == if "meta" in TopNames(fields) then Some(|Rows()|) else None
      requires keyName == ShapeKey(queryFunction, Shape())
      modifies this`items, this`options, this`Fetches, this`shouldStop
      ensures Valid() && Fetches == old(Fetches) + 1
      ensures options == old(options).(offset := old(options.offset) + |page|)
      ensures items == [] ==> shouldStop
      ensures Shape() == TypenameShape ==> shouldStop && items == page
      ensures (items, shouldStop) == Settle(page, old(count), totalLimit, options.first)
    {
      var offset := options.offset + |page|;
      // Settle is projected twice rather than bound to a tuple local: the
      // two projections keep this method's proof obligation small.
      var buffer, stop := Settle(page, count, totalLimit, options.first).0, Settle(page, count, totalLimit, options.first).1;
      PageProgress(Yielded, Fetches, count, options.first, options.offset, page, buffer, stop, offset);
      items, shouldStop, options, Fetches := buffer, stop, options.(offset := offset), Fetches + 1;
    }

    /** The buffer and the stop flag `TakePage` settles on carry the run
        forward: the items returned and buffered are still a prefix of what
        the run delivers, and all of it once the run stops. */
    lemma PageProgress(yielded: seq<T>, fetches: nat, count: nat, first: nat, at: nat, page: seq<T>,
                       buffer: seq<T>, stop: bool, offset: nat)
      requires Shape() != MetaOnlyShape
      requires first == PageSize(totalLimit) && count == |yielded|
      requires yielded <= Expected()
      requires at == start + |yielded| && (totalLimit == 0 || |yielded| < totalLimit)
      requires Shape() == TypenameShape ==> yielded == [] && page == [queryFunction.typename]
      requires Shape() == DataShape ==> page == Slice(Rows(), at, first)
      requires Shape() == DataShape && totalLimit == 0 ==> |yielded| == fetches * MaxQueryLimit
      requires offset == at + |page|
      requires (buffer, stop) == Settle(page, count, totalLimit, first)
      ensures Progress(yielded, buffer, stop, offset, fetches + 1)
    {
      if Shape() == TypenameShape {
        assert stop && buffer == page;
      } else {
        assert Expected() == Window(Rows(), start, totalLimit);
        SettlePage(Rows(), start, totalLimit, yielded, fetches, page, buffer, stop);
      }
    }
  }

  /** `[item for item in iterator]` over a graph iterator: drains it,
      returning the items it still had to deliver. */
  method CollectGraph<T>(it: GraphQueryIterator<T>) returns (all: seq<T>)
    requires it.Valid()
    modifies it
    ensures it.Valid() && it.Ended()
    ensures old(it.Yielded) + all == it.Expected()
  {
    all := [];
    while true
      invariant it.Valid()
      invariant it.Yielded == old(it.Yielded) + all
      decreases |it.Expected()| - |it.Yielded|
    {
      var r := it.Next();
      if r.None? {
        break;
      }
      all := all + [r.value];
    }
  }

  /** A hit of `__getitem__`'s lookup in a cached page of the clamped
      size lies within the page, and is the item the caller's window holds
      at that index, provided a page smaller than the lookup's hundred
      (the caller's `first` is small) is the first page. */
  lemma PageHit<T>(rows: seq<T>, offset: nat, limit: nat, currentOffset: nat, index: int, position: nat)
    requires 0 < limit < MaxQueryLimit ==> currentOffset == offset
    requires LookupStep(|Window(rows, offset, limit)|, offset, currentOffset, index) == Hit(position)
    ensures position < |Slice(rows, currentOffset, PageSize(limit))|
    ensures PyList.Get(Window(rows, offset, limit), index) == Ok(Slice(rows, currentOffset, PageSize(limit))[position])
  {
    var w := Window(rows, offset, limit);
    var i := PyList.Normalize(|w|, index);
    var page := Slice(rows, currentOffset, PageSize(limit));
    assert currentOffset + position == offset + i && 0 <= i < |w| && position < MaxQueryLimit;
    assert position < PageSize(limit) by {
      if 0 < limit < MaxQueryLimit {
        assert position == i && |w| <= limit;
      }
    }
    assert offset + i < |rows| by {
      assert |w| <= Available(|rows|, offset);
    }
    assert position < |page|;
    assert PyList.Get(w, index) == Ok(w[i]);
    assert w[i] == rows[offset + i] == page[position];
  }

  /** Wraps a graph list query. Construction calls the query once: a
      `__typename` answer materialises the result as that one item, a page
      of the list field becomes the one-page cache for indexing. Iteration
      pages through the whole query; `FetchAll` materialises it. The stored
      keyword arguments are a deep copy that no call changes. */
  class GraphQueryResult<T(==)> {
    const queryFunction: GraphFunction<T>
    const args: seq<Arg>
    const options: GraphOptions    // the stored options, as the caller gave them
    const fields: Option<Fields>   // the stored selection, with meta.totalCount added
    const limit: nat               // the `first` the caller asked for
    const offset: nat              // the offset the caller asked for
    var items: Option<seq<T>>      // the cached page, None until one arrives
    var currentOffset: nat         // the offset of the last call
    var totalCount: Option<int>    // the server's total, once known
    var keyName: Option<string>    // the response key of the result, once known
    var fetchedAll: bool           // the list storage holds the complete result
    var list: seq<T>               // the list storage

    /** The dataset the query function pages over. */
    ghost function Rows(): seq<T>
    {
      queryFunction.rows(args)
    }

    function Shape(): Shape
    {
      ShapeOf(queryFunction, Sent(fields))
    }

    ghost predicate Valid()
      reads this
    {
      && limit == options.first && offset == options.offset
      && (fields.Some? ==> "meta" in TopNames(fields.value))
      && totalCount == (if "meta" in TopNames(Sent(fields)) then Some(|Rows()|) else None)
      && keyName == ShapeKey(queryFunction, Shape())
      && (Shape() == TypenameShape ==> fetchedAll)
      && (!fetchedAll ==> list == [])
      && (0 < limit < MaxQueryLimit ==> currentOffset == offset)
      && (Shape() == DataShape ==> items == Some(Slice(Rows(), currentOffset, PageSize(limit))))
      && (Shape() == MetaOnlyShape ==> items == None)
    }

    /** The list this result stands for: the materialised list, or what a
        full paging run over the stored arguments delivers. */
    ghost function Contents(): seq<T>
      reads this
    {
      if fetchedAll then list else GraphExpected(queryFunction, args, Sent(fields), offset, limit)
    }

    constructor (queryFunction: GraphFunction<T>, args: seq<Arg>, kwargs: GraphKwargs)
      requires kwargs.fields.Some? ==> AcceptsTotalCount(kwargs.fields.value)
      ensures Valid()
      ensures this.queryFunction == queryFunction && this.args == args
      ensures options == WithOptionDefaults(kwargs.options) && fields == StoredFields(kwargs.fields)
      ensures currentOffset == offset
      ensures fetchedAll <==> Shape() == TypenameShape
      ensures Contents() == GraphExpected(queryFunction, args, Sent(fields), offset, limit)
    {
      this.queryFunction := queryFunction;
      this.args := args;
      var given := WithOptionDefaults(kwargs.options);
      options := given;
      limit := given.first;
      offset := given.offset;
      fields := StoredFields(kwargs.fields);
      items := None;
      currentOffset := 0;
      totalCount := None;
      keyName := None;
      fetchedAll := false;
      list := [];
      new;
      APICall(offset);
    }

    /** `_APICall`: one call of the query function at `pageOffset`, with
        the stored `first` clamped to a page size, on a copy of the stored
        arguments. */
    method APICall(pageOffset: nat)
      modifies this`items, this`totalCount, this`keyName, this`list, this`fetchedAll, this`currentOffset
      ensures currentOffset == pageOffset
      ensures totalCount == if "meta" in TopNames(Sent(fields)) then Some(|Rows()|) else old(totalCount)
      ensures keyName == if Shape() == MetaOnlyShape then old(keyName) else ShapeKey(queryFunction, Shape())
      ensures Shape() == TypenameShape ==>
        fetchedAll && list == [queryFunction.typename] && items == old(items)
      ensures Shape() == DataShape ==>
        items == Some(Slice(Rows(), pageOffset, PageSize(options.first)))
        && list == old(list) && fetchedAll == old(fetchedAll)
      ensures Shape() == MetaOnlyShape ==>
        items == old(items) && list == old(list) && fetchedAll == old(fetchedAll)
    {
      var request := options.(offset := pageOffset, first := PageSize(options.first));
      var data := Respond(queryFunction, args, request, Sent(fields));
      ShapeOfResponse(queryFunction, args, request, Sent(fields));
      if data.meta.Some? {
        totalCount := Some(data.meta.value);
      }
      if data.typename.Some? {
        keyName := Some("__typename");
        list := [data.typename.value];
        fetchedAll := true;
      } else if data.data.Some? {
        keyName := Some(queryFunction.keyName);
        items := data.data;
      }
      currentOffset := pageOffset;
    }

    /** The `keyName` property. */
    function KeyName(): (k: Option<string>)
      reads this
      requires Valid()
      ensures k == Some("__typename") <==> Shape() == TypenameShape
      ensures k.None? <==> Shape() == MetaOnlyShape
      ensures Shape() == DataShape ==> k == Some(queryFunction.keyName)
    {
      keyName
    }

    /** The `totalCount` property: known exactly when meta data is selected,
        which it always is when `fields` was given. */
    function TotalCount(): (n: Option<int>)
      reads this
      requires Valid()
      ensures n.Some? <==> "meta" in TopNames(Sent(fields))
      ensures fields.Some? ==> n == Some(|Rows()|)
    {
      totalCount
    }

    /** `__len__`, inherited from `QueryResult`: the length of the
        materialised list, or the length of the caller's window of the
        dataset. That is the length of the result, except for a result
        whose answers carry nothing but meta data: it counts the server's
        items though iterating yields none. */
    function Length(): (n: nat)
      reads this
      requires Valid()
      ensures fetchedAll ==> n == |list|
      ensures !fetchedAll ==> n == |Window(Rows(), offset, limit)|
      ensures fetchedAll || Shape() == DataShape ==> n == |Contents()|
    {
      if fetchedAll then |list|
      else
        LengthUnfetchedIsWindowLength(Rows(), offset, limit);
        LengthUnfetched(limit, offset, totalCount.value)
    }

    /** `__getitem__`, inherited from `QueryResult`, with the graph
        `_APICall`. A page of the list field holds the clamped `first`
        items, fewer than the hundred the lookup assumes when the caller's
        `first` is small; but then every index within the length lies in
        the first page, which is never refetched. A result with nothing but
        meta data has no page, and any index within its length fails on
        indexing None. */
    method GetItem(index: int) returns (r: Result<T>)
      requires Valid()
      modifies this`items, this`totalCount, this`keyName, this`list, this`fetchedAll, this`currentOffset
      decreases if !fetchedAll && LookupStep(Length(), offset, currentOffset, index).Refetch? then 1 else 0
      ensures Valid() && fetchedAll == old(fetchedAll) && Contents() == old(Contents())
      ensures old(fetchedAll) ==> r == PyList.Get(list, index) && unchanged(this)
      ensures !old(fetchedAll) ==> var step := LookupStep(old(Length()), offset, old(currentOffset), index);
        && (step.Refetch? ==> currentOffset == step.offset)
        && (!step.Refetch? ==> unchanged(this))
      ensures !old(fetchedAll) && Shape() == DataShape ==> r == PyList.Get(old(Contents()), index)
      ensures !old(fetchedAll) && Shape() == MetaOnlyShape ==>
        r == if PyList.Get(Window(Rows(), offset, limit), index).Ok? then Err(TypeError) else Err(IndexError)
    {
      if fetchedAll {
        return PyList.Get(list, index);
      }
      var len := Length();
      match LookupStep(len, offset, currentOffset, index)
      case OutOfRange =>
        r := Err(IndexError);
      case Hit(position) =>
        if items.None? {
          r := Err(TypeError);
        } else {
          PageHit(Rows(), offset, limit, currentOffset, index, position);
          r := Ok(items.value[position]);
        }
      case Refetch(pageOffset, shifted) =>
        RefetchThenHit(len, offset, currentOffset, index);
        RefetchOnlyFullPages(index);
        APICall(pageOffset);
        r := GetItem(shifted);
    }

    /** With the caller's `first` below the page size every index within
        the length lies in the first page, so it is never refetched. */
    lemma RefetchOnlyFullPages(index: int)
      requires Valid() && !fetchedAll
      requires LookupStep(Length(), offset, currentOffset, index).Refetch?
      ensures limit == 0 || MaxQueryLimit <= limit
    {
    }

    /** `__iter__`: the materialised list, or a fresh graph iterator over
        the stored arguments. */
    method Iter() returns (r: Iteration<T, GraphQueryIterator<T>>)
      requires Valid()
      ensures fetchedAll ==> r == OverList(list)
      ensures !fetchedAll ==>
        && r.OverPages? && fresh(r.pages)
        && r.pages.Valid() && r.pages.Yielded == [] && r.pages.Expected() == Contents()
    {
      if fetchedAll {
        return OverList(list);
      }
      var pages := new GraphQueryIterator(Raw(queryFunction), args,
                                          GraphKwargs(Some(OptionsArg(Some(offset), Some(limit))), fields));
      r := OverPages(pages);
    }

    /** `FetchAll`: materialises the result by draining a fresh graph
        iterator over the stored arguments into the list storage. A second
        call changes nothing and fetches nothing. */
    method FetchAll()
      requires Valid()
      modifies this`list, this`fetchedAll
      ensures Valid() && fetchedAll && list == old(Contents()) && Contents() == old(Contents())
      ensures old(fetchedAll) ==> unchanged(this)
    {
      if fetchedAll {
        return;
      }
      var pages := new GraphQueryIterator(Raw(queryFunction), args,
                                          GraphKwargs(Some(OptionsArg(Some(offset), Some(limit))), fields));
      var all := CollectGraph(pages);
      list := all;
      fetchedAll := true;
    }

    /** `__repr__` */
    function Show(): (r: Shown<T>)
      reads this
      ensures r.Listing? <==> fetchedAll
      ensures r.Listing? ==> r.items == Contents()
    {
      if fetchedAll then Listing(list) else Placeholder("<Graph query result object>")
    }
  }

  /** The response the decorated graph method returns: the `__typename`
      entry, the list field entry holding the result, and the
      `meta.totalCount` entry, each None when absent. */
  datatype GraphReply<T(==)> = GraphReply(typename: Option<T>, data: Option<(string, GraphQueryResult<T>)>,
                                          meta: Option<int>)

  /** Calling a method decorated by `UseGraphQueryResult`: a result over the
      raw function, with the bound client as first positional argument,
      reshaped into a graph response. */
  method CallUseGraphQueryResult<T(==)>(fn: GraphFunction<T>, client: nat, args: seq<Arg>, kwargs: GraphKwargs)
    returns (reply: GraphReply<T>)
    requires kwargs.fields.Some? ==> AcceptsTotalCount(kwargs.fields.value)
    ensures var shape := ShapeOf(fn, Sent(StoredFields(kwargs.fields)));
      && (reply.typename.Some? <==> shape == TypenameShape)
      && (reply.typename.Some? ==> reply.typename.value == fn.typename)
      && (reply.data.Some? <==> shape == DataShape)
      && (reply.meta.Some? <==> kwargs.fields.Some?)
    ensures var rows := fn.rows([Client(client)] + args);
      && (reply.meta.Some? ==> reply.meta.value == |rows|)
      && (reply.data.Some? ==>
            var given := WithOptionDefaults(kwargs.options);
            && reply.data.value.0 == fn.keyName
            && reply.data.value.1.Valid() && !reply.data.value.1.fetchedAll
            && reply.data.value.1.Contents() == Window(rows, given.offset, given.first))
  {
    var result := new GraphQueryResult(fn, [Client(client)] + args, kwargs);
    var typename: Option<T> := None;
    var data: Option<(string, GraphQueryResult<T>)> := None;
    var meta: Option<int> := None;
    if result.keyName == Some("__typename") {
      var first := result.GetItem(0);
      typename := Some(first.value);
    } else if result.keyName.Some? {
      data := Some((result.keyName.value, result));
    }
    if result.totalCount.Some? {
      meta := Some(result.totalCount.value);
    }
    reply := GraphReply(typename, data, meta);
  }
}
