/** The least-recently-used cache of tool contexts in `datus/mcp_server.py`. */
module ContextCache {
  import opened Wrappers
  import opened Sequences

  // ---------------------------------------------------------------- key sequences

  function Without<T(==)>(s: seq<T>, x: T): seq<T> {
    if s == [] then []
    else if s[0] == x then Without(s[1..], x)
    else [s[0]] + Without(s[1..], x)
  }

  /** `move_to_end`, or appending a new key. */
  function Touch<T(==)>(s: seq<T>, x: T): seq<T> {
    Without(s, x) + [x]
  }

  lemma {:induction false} WithoutConcat<T>(a: seq<T>, b: seq<T>, x: T)
    ensures Without(a + b, x) == Without(a, x) + Without(b, x)
  {
    if a == [] {
      assert a + b == b;
    } else {
      WithoutConcat(a[1..], b, x);
      assert a + b == [a[0]] + (a[1..] + b);
      WithoutCons(a[0], a[1..] + b, x);
      Assoc([a[0]], Without(a[1..], x), Without(b, x));
    }
  }

  lemma Assoc<T>(a: seq<T>, b: seq<T>, c: seq<T>)
    ensures a + (b + c) == (a + b) + c
  {
  }

  lemma {:induction false} WithoutAbsent<T>(s: seq<T>, x: T)
    ensures x !in s ==> Without(s, x) == s
    ensures forall y :: y in Without(s, x) <==> y in s && y != x
  {
    if s != [] {
      WithoutAbsent(s[1..], x);
      assert forall y :: y in s <==> y == s[0] || y in s[1..];
    }
  }

  lemma WithoutCons<T>(h: T, t: seq<T>, x: T)
    ensures Without([h] + t, x) == if h == x then Without(t, x) else [h] + Without(t, x)
  {
    assert ([h] + t)[1..] == t;
  }

  lemma WithoutMember<T>(s: seq<T>, x: T, y: T)
    ensures y in Without(s, x) <==> y in s && y != x
  {
    WithoutAbsent(s, x);
  }

  lemma {:induction false} WithoutDistinct<T>(s: seq<T>, x: T)
    requires Distinct(s)
    ensures Distinct(Without(s, x)) && |Without(s, x)| == if x in s then |s| - 1 else |s|
  {
    if s != [] {
      WithoutDistinct(s[1..], x);
      WithoutAbsent(s[1..], x);
      assert forall y :: y in s <==> y == s[0] || y in s[1..];
      assert s[0] !in s[1..];
      var rest := Without(s[1..], x);
      assert Without(s, x) == if s[0] == x then rest else [s[0]] + rest;
    }
  }

  lemma TouchDistinct<T>(s: seq<T>, x: T)
    requires Distinct(s)
    ensures Distinct(Touch(s, x)) && |Touch(s, x)| == if x in s then |s| else |s| + 1
    ensures forall y :: y in Touch(s, x) <==> y in s || y == x
  {
    WithoutDistinct(s, x);
    WithoutAbsent(s, x);
  }

  // ---------------------------------------------------------------- traces of calls

  /** One call: a lookup whose context could or could not be created if it is missing, or
      `close_all`. */
  datatype Event<K> = Get(key: K, creatable: bool) | CloseAll

  /** The keys of the cache, least recently used first, after one more call. */
  function Next<K(==)>(order: seq<K>, maxSize: int, e: Event<K>): seq<K> {
    match e
    case CloseAll => []
    case Get(key, creatable) =>
      if key in order then Touch(order, key)
      else if !creatable then order
      else if maxSize > 0 && |order| >= maxSize then order[1..] + [key]
      else order + [key]
  }

  function Order<K(==)>(trace: seq<Event<K>>, maxSize: int): seq<K> {
    if trace == [] then [] else Next(Order(trace[..|trace| - 1], maxSize), maxSize, trace[|trace| - 1])
  }

  /** The keys of the calls that returned a context since the last `close_all`, in call order. */
  function Served<K(==)>(trace: seq<Event<K>>, maxSize: int): seq<K> {
    if trace == [] then []
    else
      var before, last := trace[..|trace| - 1], trace[|trace| - 1];
      match last
      case CloseAll => []
      case Get(key, creatable) =>
        if key in Order(before, maxSize) || creatable then Served(before, maxSize) + [key] else Served(before, maxSize)
  }

  /** The distinct keys of a call sequence, in order of last use. */
  function Recency<K(==)>(keys: seq<K>): seq<K> {
    if keys == [] then [] else Touch(Recency(keys[..|keys| - 1]), keys[|keys| - 1])
  }

  /** Some use of `b` comes after every use of `a`. */
  ghost predicate UsedBefore<K>(keys: seq<K>, a: K, b: K) {
    exists j :: 0 <= j < |keys| && keys[j] == b && a !in keys[j..]
  }

  /** The last `n` entries, or all of them when there are fewer. */
  function Newest<T>(s: seq<T>, n: nat): seq<T> {
    if |s| <= n then s else s[|s| - n..]
  }

  ghost predicate SortedByLastUse<K>(order: seq<K>, keys: seq<K>) {
    order == [] ||
    (&& order[0] in keys
     && (forall k <- order[1..] :: UsedBefore(keys, order[0], k))
     && SortedByLastUse(order[1..], keys))
  }

  /** `Recency` is what its name says: each key once, ordered by its last use. */
  lemma {:induction false} RecencyIsLastUseOrder<K>(keys: seq<K>)
    ensures Distinct(Recency(keys)) && (forall k :: k in Recency(keys) <==> k in keys)
    ensures SortedByLastUse(Recency(keys), keys)
  {
    if keys != [] {
      var before, last := keys[..|keys| - 1], keys[|keys| - 1];
      RecencyIsLastUseOrder(before);
      TouchDistinct(Recency(before), last);
      assert keys == before + [last];
      TouchSorted(Recency(before), before, last);
    }
  }

  lemma UsedBeforeAppended<K>(before: seq<K>, last: K, a: K, b: K)
    requires a != last && (b == last || UsedBefore(before, a, b))
    ensures UsedBefore(before + [last], a, b)
  {
    var keys := before + [last];
    if b == last {
      assert keys[|before|..] == [last];
    } else {
      var j :| 0 <= j < |before| && before[j] == b && a !in before[j..];
      assert keys[j..] == before[j..] + [last];
    }
  }

  lemma {:induction false} TouchSorted<K>(order: seq<K>, before: seq<K>, last: K)
    requires SortedByLastUse(order, before)
    ensures SortedByLastUse(Touch(order, last), before + [last])
  {
    if order != [] {
      var rest := Touch(order[1..], last);
      TouchSorted(order[1..], before, last);
      if order[0] != last {
        forall k | k in rest ensures UsedBefore(before + [last], order[0], k) {
          WithoutMember(order[1..], last, k);
          UsedBeforeAppended(before, last, order[0], k);
        }
        assert Touch(order, last) == [order[0]] + rest;
      }
    }
  }

  lemma {:induction false} OrderDistinct<K>(trace: seq<Event<K>>, maxSize: int)
    ensures Distinct(Order(trace, maxSize)) && (maxSize > 0 ==> |Order(trace, maxSize)| <= maxSize)
  {
    if trace != [] {
      var before := Order(trace[..|trace| - 1], maxSize);
      OrderDistinct(trace[..|trace| - 1], maxSize);
      if trace[|trace| - 1].Get? {
        TouchDistinct(before, trace[|trace| - 1].key);
      }
    }
  }

  lemma TouchSplit<K>(gone: seq<K>, kept: seq<K>, key: K)
    requires Distinct(gone + kept)
    ensures key in kept ==> Touch(gone + kept, key) == gone + Touch(kept, key)
    ensures key !in kept ==> Touch(gone + kept, key) == Without(gone, key) + (kept + [key])
  {
    WithoutConcat(gone, kept, key);
    WithoutAbsent(kept, key);
    if key in kept {
      forall i | 0 <= i < |gone| ensures gone[i] != key {
        var j :| 0 <= j < |kept| && kept[j] == key;
        assert (gone + kept)[i] != (gone + kept)[|gone| + j];
      }
      WithoutAbsent(gone, key);
    }
    assert Without(gone, key) + Without(kept, key) + [key] == Without(gone, key) + (Without(kept, key) + [key]);
  }

  lemma OrderOfAppended<K>(trace: seq<Event<K>>, maxSize: int, e: Event<K>)
    ensures Order(trace + [e], maxSize) == Next(Order(trace, maxSize), maxSize, e)
    ensures Distinct(Order(trace, maxSize))
  {
    assert (trace + [e])[..|trace|] == trace;
    OrderDistinct(trace, maxSize);
  }

  /** Touching a key either rearranges the newest `n` or pushes out the oldest of them. */
  lemma NewestOfTouch<K>(all: seq<K>, n: nat, key: K)
    requires Distinct(all) && n > 0
    ensures var kept := Newest(all, n);
            Newest(Touch(all, key), n) ==
            if key in kept then Touch(kept, key)
            else if |kept| >= n then kept[1..] + [key]
            else kept + [key]
  {
    var kept := Newest(all, n);
    var gone := all[..|all| - |kept|];
    assert all == gone + kept;
    TouchSplit(gone, kept, key);
    if key in kept {
      TouchDistinct(kept, key);
      NewestOfConcat(gone, Touch(kept, key), n);
    } else {
      NewestOfConcat(Without(gone, key), kept + [key], n);
      if |all| >= n {
        assert (kept + [key])[1..] == kept[1..] + [key];
      }
    }
  }

  lemma NewestOfConcat<T>(a: seq<T>, b: seq<T>, n: nat)
    ensures |b| == n ==> Newest(a + b, n) == b
    ensures |b| == n + 1 ==> Newest(a + b, n) == b[1..]
    ensures a == [] && |b| <= n ==> Newest(a + b, n) == b
  {
    if a == [] {
      assert a + b == b;
    }
  }

  /** The cache holds exactly the `max_size` most recently served distinct keys, in order of
      last use; a bound that is not positive keeps all of them. */
  lemma {:induction false} CacheHoldsTheMostRecent<K>(trace: seq<Event<K>>, maxSize: int)
    ensures var recent := Recency(Served(trace, maxSize));
            Order(trace, maxSize) == if maxSize > 0 then Newest(recent, maxSize) else recent
  {
    if trace != [] {
      var before, last := trace[..|trace| - 1], trace[|trace| - 1];
      CacheHoldsTheMostRecent(before, maxSize);
      var served := Served(before, maxSize);
      RecencyIsLastUseOrder(served);
      if last.Get? && (last.key in Order(before, maxSize) || last.creatable) {
        assert (served + [last.key])[..|served|] == served;
        assert Recency(served + [last.key]) == Touch(Recency(served), last.key);
        if maxSize > 0 {
          NewestOfTouch(Recency(served), maxSize, last.key);
        } else {
          WithoutAbsent(Recency(served), last.key);
        }
      }
    }
  }

  // ---------------------------------------------------------------- two cache sizes

  /** The entries of `s` that are also in `keep`, in the order of `s`. */
  function Common<K(==)>(s: seq<K>, keep: seq<K>): seq<K> {
    if s == [] then []
    else if s[0] in keep then [s[0]] + Common(s[1..], keep)
    else Common(s[1..], keep)
  }

  lemma {:induction false} CommonConcat<K>(a: seq<K>, b: seq<K>, keep: seq<K>)
    ensures Common(a + b, keep) == Common(a, keep) + Common(b, keep)
  {
    if a == [] {
      assert a + b == b;
    } else {
      CommonConcat(a[1..], b, keep);
      assert (a + b)[1..] == a[1..] + b;
    }
  }

  lemma {:induction false} CommonMembers<K>(s: seq<K>, keep: seq<K>)
    ensures forall k :: k in Common(s, keep) <==> k in s && k in keep
    ensures (forall k <- s :: k in keep) ==> Common(s, keep) == s
  {
    if s != [] {
      CommonMembers(s[1..], keep);
      assert forall k :: k in s <==> k == s[0] || k in s[1..];
    }
  }

  /** Dropping a key from both sides. */
  lemma {:induction false} CommonWithout<K>(s: seq<K>, keep: seq<K>, x: K)
    ensures Common(Without(s, x), Without(keep, x)) == Without(Common(s, keep), x)
  {
    WithoutAbsent(keep, x);
    if s != [] {
      CommonWithout(s[1..], keep, x);
      WithoutCons(s[0], Common(s[1..], keep), x);
      if s[0] != x {
        assert Without(s, x) == [s[0]] + Without(s[1..], x);
        assert ([s[0]] + Without(s[1..], x))[1..] == Without(s[1..], x);
      }
    }
  }

  lemma {:induction false} CommonIgnores<K>(s: seq<K>, a: seq<K>, b: seq<K>)
    requires forall k <- s :: k in a <==> k in b
    ensures Common(s, a) == Common(s, b)
  {
    if s != [] {
      CommonIgnores(s[1..], a, b);
    }
  }

  /** Both caches served the same trace, the smaller within the larger. */
  ghost predicate Nested<K>(small: seq<K>, large: seq<K>, n: nat) {
    Distinct(small) && Distinct(large) && Common(large, small) == small && (|small| >= n || small == large)
  }

  lemma {:induction false} CommonMinus<K>(s: seq<K>, keep: seq<K>, x: K)
    ensures Common(s, Without(keep, x)) == Without(Common(s, keep), x)
  {
    WithoutAbsent(keep, x);
    if s != [] {
      CommonMinus(s[1..], keep, x);
      WithoutCons(s[0], Common(s[1..], keep), x);
    }
  }

  /** The small cache evicts its oldest entry. */
  lemma EvictSmall<K>(small: seq<K>, large: seq<K>)
    requires Distinct(small) && small != [] && Common(large, small) == small
    ensures Common(large, small[1..]) == small[1..]
  {
    CommonMinus(large, small, small[0]);
    WithoutAbsent(small[1..], small[0]);
    assert Without(small, small[0]) == small[1..];
  }

  /** Both caches evict their oldest entry. */
  lemma EvictBoth<K>(small: seq<K>, large: seq<K>)
    requires Distinct(small) && Distinct(large) && small != [] && Common(large, small) == small
    ensures large != [] && Common(large[1..], small[1..]) == small[1..]
  {
    EvictSmall(small, large);
    CommonMembers(large[1..], small[1..]);
  }

  lemma AppendBoth<K>(small: seq<K>, large: seq<K>, key: K)
    requires Distinct(small) && Distinct(large) && Common(large, small) == small && key !in large && key !in small
    ensures Distinct(small + [key]) && Distinct(large + [key])
    ensures Common(large + [key], small + [key]) == small + [key]
  {
    CommonConcat(large, [key], small + [key]);
    CommonIgnores(large, small, small + [key]);
  }

  lemma NestedTouch<K>(small: seq<K>, large: seq<K>, key: K)
    requires Distinct(small) && Distinct(large) && Common(large, small) == small
    ensures Common(Without(large, key), Without(small, key)) == Without(small, key)
    ensures Common(Touch(large, key), Touch(small, key)) == Touch(small, key)
    ensures key !in small ==> Common(Touch(large, key), small) == small
  {
    CommonWithout(large, small, key);
    WithoutAbsent(small, key);
    WithoutAbsent(large, key);
    WithoutDistinct(small, key);
    WithoutDistinct(large, key);
    AppendBoth(Without(small, key), Without(large, key), key);
    CommonConcat(Without(large, key), [key], small);
  }

  lemma NestedMiss<K>(small: seq<K>, large: seq<K>, n: nat, m: int, key: K)
    requires 0 < n && (m <= 0 || n <= m) && Nested(small, large, n) && key !in large && key !in small
    ensures Nested(Next(small, n, Get(key, true)), Next(large, m, Get(key, true)), n)
  {
    if |small| < n {
      AppendBoth(small, large, key);
    } else if m > 0 && |large| >= m {
      EvictBoth(small, large);
      AppendBoth(small[1..], large[1..], key);
    } else {
      EvictSmall(small, large);
      AppendBoth(small[1..], large, key);
    }
  }

  lemma NestedStep<K>(small: seq<K>, large: seq<K>, n: nat, m: int, e: Event<K>)
    requires 0 < n && (m <= 0 || n <= m) && Nested(small, large, n)
    ensures Nested(Next(small, n, e), Next(large, m, e), n)
  {
    if e.Get? {
      CommonMembers(large, small);
      assert e.key in small ==> e.key in large;
      NestedTouch(small, large, e.key);
      TouchDistinct(small, e.key);
      TouchDistinct(large, e.key);
      if e.key !in large && e.creatable {
        NestedMiss(small, large, n, m, e.key);
      } else if e.key in large && e.key !in small && e.creatable {
        var rest := Without(large, e.key);
        WithoutAbsent(small, e.key);
        WithoutAbsent(large, e.key);
        WithoutDistinct(large, e.key);
        EvictSmall(small, rest);
        AppendBoth(small[1..], rest, e.key);
      }
    }
  }

  /** On the same calls, failed creations included, a cache with a smaller positive bound holds
      a subset of what a larger or unbounded one holds, in the same order. */
  lemma {:induction false} SmallerCacheIsContained<K>(trace: seq<Event<K>>, n: nat, m: int)
    requires 0 < n && (m <= 0 || n <= m)
    ensures Common(Order(trace, m), Order(trace, n)) == Order(trace, n)
    ensures Nested(Order(trace, n), Order(trace, m), n)
  {
    if trace != [] {
      SmallerCacheIsContained(trace[..|trace| - 1], n, m);
      NestedStep(Order(trace[..|trace| - 1], n), Order(trace[..|trace| - 1], m), n, m, trace[|trace| - 1]);
    }
  }

  // ---------------------------------------------------------------- cache keys

  function CacheKey(datasource: string, subagent: Option<string>): string {
    datasource + [':'] + Effective(subagent)
  }

  /** A missing and an empty subagent are the same. */
  function Effective(subagent: Option<string>): string {
    if subagent.Some? then subagent.value else ""
  }

  lemma FirstColon(datasource: string, rest: string)
    requires ':' !in datasource
    ensures (datasource + [':'] + rest)[|datasource|] == ':'
    ensures forall i | 0 <= i < |datasource| :: (datasource + [':'] + rest)[i] != ':'
  {
  }

  /** Requests for colon-free datasources share a context exactly when they ask for the same
      datasource and subagent. */
  lemma KeysAgreeIffRequestsAgree(d1: string, s1: Option<string>, d2: string, s2: Option<string>)
    requires ':' !in d1 && ':' !in d2
    ensures CacheKey(d1, s1) == CacheKey(d2, s2) <==>
              d1 == d2 && (if s1.Some? then s1.value else "") == (if s2.Some? then s2.value else "")
  {
    if CacheKey(d1, s1) == CacheKey(d2, s2) {
      FirstColon(d1, Effective(s1));
      FirstColon(d2, Effective(s2));
      var n, key := |d1|, CacheKey(d1, s1);
      assert d1 == key[..n] == d2;
      assert Effective(s1) == key[n + 1..] == Effective(s2);
    }
  }

  /** A colon at position `i` of a key splits it into another datasource and subagent. */
  lemma SplitAt(key: string, i: nat)
    requires i < |key| && key[i] == ':'
    ensures CacheKey(key[..i], Some(key[i + 1..])) == key
  {
  }

  lemma OneColon(datasource: string, tail: string)
    requires ':' !in datasource && ':' !in tail
    ensures forall i | 0 <= i < |datasource| + 1 + |tail| ::
              (datasource + [':'] + tail)[i] == ':' ==> i == |datasource|
  {
  }

  /** A key belongs to one request only exactly when neither of its parts has a colon. */
  lemma KeyIsUnambiguousIffColonFree(datasource: string, subagent: Option<string>)
    ensures (':' !in datasource && ':' !in Effective(subagent)) <==>
            forall d, s | CacheKey(d, s) == CacheKey(datasource, subagent) ::
              d == datasource && Effective(s) == Effective(subagent)
  {
    var key, tail := CacheKey(datasource, subagent), Effective(subagent);
    if ':' in datasource {
      var i: nat :| i < |datasource| && datasource[i] == ':';
      SplitAt(key, i);
      assert key[..i] != datasource;
    } else if ':' in tail {
      var i: nat :| i < |tail| && tail[i] == ':';
      SplitAt(key, |datasource| + 1 + i);
      assert key[..|datasource| + 1 + i] != datasource;
    } else {
      forall d, s | CacheKey(d, s) == key ensures d == datasource && Effective(s) == tail {
        OneColon(datasource, tail);
        assert key[|d|] == ':';
        assert d == key[..|d|] == datasource;
        assert Effective(s) == key[|d| + 1..] == tail;
      }
    }
  }

  // ---------------------------------------------------------------- the manager

  /** A context and its tools, and whether each could be made. `given` records the tools it was
      created with and `closed` that its connectors were released. */
  class ToolContext {
    const key: string
    ghost const given: map<string, bool>
    var tools: map<string, bool>
    ghost var closed: bool

    constructor (key: string, tools: map<string, bool>)
      ensures this.key == key && this.tools == given == tools && !closed
    {
      this.key, this.tools, given := key, tools, tools;
      closed := false;
    }

    /** Errors raised by a connector are logged and swallowed. */
    method Close()
      modifies this
      ensures closed && tools == map[]
    {
      tools := map[];
      closed := true;
    }
  }

  /** `contexts` and `order` together are the `OrderedDict`: its items and the order of its
      keys. The ghost fields record every context ever created and every call so far. */
  class Manager {
    const maxSize: int
    var contexts: map<string, ToolContext>
    var order: seq<string>
    ghost var created: set<ToolContext>
    ghost var trace: seq<Event<string>>

    ghost predicate Valid()
      reads this, created
    {
      Sound() && order == Order(trace, maxSize)
    }

    /** Every context ever created is in exactly one place: cached and open, with the tools it was
        created with, or closed and without any. */
    ghost predicate Sound()
      reads this, created
    {
      && (forall k :: k in order <==> k in contexts)
      && (forall k <- contexts :: contexts[k] in created && contexts[k].key == k)
      && (forall c <- created :: c.closed <==> !(c.key in contexts && contexts[c.key] == c))
      && (forall c <- created :: c.tools == if c.closed then map[] else c.given)
    }

    constructor (maxSize: int)
      ensures Valid() && this.maxSize == maxSize && created == {} && trace == []
    {
      this.maxSize := maxSize;
      contexts, order, created, trace := map[], [], {}, [];
    }

    /** `None` is a creation that raised. */
    method GetOrCreateContext(datasource: string, subagent: Option<string>, creatable: bool, tools: map<string, bool>)
      returns (r: Option<ToolContext>)
      requires Valid()
      modifies this, contexts.Values
      ensures Valid() && fresh(created - old(created)) && created >= old(created)
      ensures trace == old(trace) + [Get(CacheKey(datasource, subagent), creatable)]
      ensures r.None? <==> CacheKey(datasource, subagent) !in old(contexts) && !creatable
      ensures r.None? ==> contexts == old(contexts) && created == old(created)
      ensures r.Some? ==> CacheKey(datasource, subagent) in contexts && contexts[CacheKey(datasource, subagent)] == r.value
      ensures r.Some? && CacheKey(datasource, subagent) in old(contexts) ==>
                r.value == old(contexts)[CacheKey(datasource, subagent)] && r.value.tools == old(r.value.tools)
      ensures r.Some? && CacheKey(datasource, subagent) !in old(contexts) ==> fresh(r.value) && r.value.tools == tools
      ensures r.Some? ==> !r.value.closed && r.value.key == CacheKey(datasource, subagent) && r.value.tools == r.value.given
    {
      var key := CacheKey(datasource, subagent);
      OrderOfAppended(trace, maxSize, Get(key, creatable));
      TouchDistinct(order, key);
      if key in contexts {
        trace := trace + [Get(key, creatable)];
        order := Touch(order, key);
        r := Some(contexts[key]);
      } else if !creatable {
        trace := trace + [Get(key, creatable)];
        r := None;
      } else {
        var context := Insert(key, tools);
        r := Some(context);
      }
    }

    method Insert(key: string, tools: map<string, bool>) returns (context: ToolContext)
      requires Valid() && key !in contexts
      modifies this, contexts.Values
      ensures Valid() && fresh(context) && created == old(created) + {context}
      ensures trace == old(trace) + [Get(key, true)]
      ensures key in contexts && contexts[key] == context && context.key == key
      ensures !context.closed && context.tools == context.given == tools
    {
      OrderOfAppended(trace, maxSize, Get(key, true));
      context := new ToolContext(key, tools);
      MakeRoom();
      Place(key, context);
      trace := trace + [Get(key, true)];
    }

    method Place(key: string, context: ToolContext)
      requires Sound() && key !in contexts && context !in created
      requires context.key == key && !context.closed && context.tools == context.given
      modifies `order, `contexts, `created
      ensures Sound() && order == old(order) + [key] && contexts == old(contexts)[key := context]
      ensures created == old(created) + {context}
    {
      order := order + [key];
      contexts := contexts[key := context];
      created := created + {context};
    }

    method MakeRoom()
      requires Sound() && Distinct(order)
      modifies `order, `contexts, contexts.Values
      ensures Sound()
      ensures order == (if maxSize > 0 && |old(order)| >= maxSize then old(order)[1..] else old(order))
      ensures contexts.Keys <= old(contexts).Keys && created == old(created)
    {
      if maxSize > 0 && |order| >= maxSize {
        EvictOldest();
      }
    }

    method EvictOldest()
      requires Sound() && order != [] && Distinct(order)
      modifies `order, `contexts, contexts.Values
      ensures Sound()
      ensures order == old(order)[1..] && contexts == old(contexts) - {old(order)[0]}
      ensures old(contexts)[old(order)[0]].closed && old(contexts)[old(order)[0]].tools == map[]
      ensures forall c <- contexts.Values :: c.tools == old(c.tools) && c.closed == old(c.closed)
    {
      var oldest := contexts[order[0]];
      contexts, order := contexts - {order[0]}, order[1..];
      oldest.Close();
    }

    method CloseAll()
      requires Valid()
      modifies this, contexts.Values
      ensures Valid() && order == [] && contexts == map[] && created == old(created)
      ensures trace == old(trace) + [Event.CloseAll]
      ensures forall c <- created :: c.closed && c.tools == map[]
    {
      for i := 0 to |order|
        modifies contexts.Values
        invariant forall c <- created :: c.closed || (c.key in contexts && contexts[c.key] == c)
        invariant forall c <- created :: c.tools == if c.closed then map[] else c.given
        invariant forall j | 0 <= j < i :: contexts[order[j]].closed
      {
        contexts[order[i]].Close();
      }
      forall c <- created ensures c.closed {
        if c.key in contexts && contexts[c.key] == c {
          var j :| 0 <= j < |order| && order[j] == c.key;
        }
      }
      contexts, order := map[], [];
      trace := trace + [Event.CloseAll];
    }
  }
}
