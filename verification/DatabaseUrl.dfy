/** The two rewriters of database URLs: towards the asyncpg driver and back to psycopg. */
module DatabaseUrl {
  import opened Wrappers
  import opened PythonText

  // ---------------------------------------------------------------------------
  // Insertion-ordered dictionaries
  // ---------------------------------------------------------------------------

  type Pair = (string, string)

  function Get(d: seq<Pair>, key: string): Option<string> {
    if d == [] then None else if d[0].0 == key then Some(d[0].1) else Get(d[1..], key)
  }

  /** `d[key] = value`: a known key keeps its place. */
  function Set(d: seq<Pair>, key: string, value: string): seq<Pair> {
    if d == [] then [(key, value)]
    else if d[0].0 == key then [(key, value)] + d[1..]
    else [d[0]] + Set(d[1..], key, value)
  }

  /** `d.pop(key, None)`. */
  function Without(d: seq<Pair>, key: string): seq<Pair> {
    if d == [] then [] else if d[0].0 == key then Without(d[1..], key) else [d[0]] + Without(d[1..], key)
  }

  /** `dict(pairs)`: the first place and the last value of each key. */
  function Dict(pairs: seq<Pair>): seq<Pair> {
    if pairs == [] then []
    else Set(Dict(pairs[..|pairs| - 1]), pairs[|pairs| - 1].0, pairs[|pairs| - 1].1)
  }

  predicate Unique(d: seq<Pair>) {
    d == [] || (Get(d[1..], d[0].0).None? && Unique(d[1..]))
  }

  lemma {:induction false} GetSet(d: seq<Pair>, key: string, value: string, k: string)
    ensures Get(Set(d, key, value), k) == if k == key then Some(value) else Get(d, k)
  {
    if d != [] && d[0].0 != key {
      GetSet(d[1..], key, value, k);
      assert Set(d, key, value)[1..] == Set(d[1..], key, value);
    } else if d != [] {
      assert Set(d, key, value)[1..] == d[1..];
    }
  }

  lemma {:induction false} GetWithout(d: seq<Pair>, key: string, k: string)
    ensures Get(Without(d, key), k) == if k == key then None else Get(d, k)
  {
    if d != [] {
      GetWithout(d[1..], key, k);
      if d[0].0 != key {
        assert Without(d, key)[1..] == Without(d[1..], key);
      }
    }
  }

  lemma {:induction false} SetNew(d: seq<Pair>, key: string, value: string)
    requires Get(d, key).None?
    ensures Set(d, key, value) == d + [(key, value)]
  {
    if d != [] {
      SetNew(d[1..], key, value);
      assert d == [d[0]] + d[1..];
    }
  }

  lemma {:induction false} WithoutAbsent(d: seq<Pair>, key: string)
    requires Get(d, key).None?
    ensures Without(d, key) == d
  {
    if d != [] {
      WithoutAbsent(d[1..], key);
    }
  }

  lemma {:induction false} WithoutSet(d: seq<Pair>, key: string, value: string, k: string)
    ensures Without(Set(d, key, value), k) == if k == key then Without(d, k) else Set(Without(d, k), key, value)
  {
    if d == [] {
      assert Set(d, key, value)[1..] == [];
    } else if d[0].0 == key {
      assert Set(d, key, value)[1..] == d[1..];
      if k != key {
        assert Without(d, k)[1..] == Without(d[1..], k);
      }
    } else {
      WithoutSet(d[1..], key, value, k);
      assert Set(d, key, value)[1..] == Set(d[1..], key, value);
      if d[0].0 != k {
        assert Without(d, k)[1..] == Without(d[1..], k);
      }
    }
  }

  lemma {:induction false} UniqueSet(d: seq<Pair>, key: string, value: string)
    requires Unique(d)
    ensures Unique(Set(d, key, value))
  {
    if d == [] {
      assert [(key, value)][1..] == [];
    } else if d[0].0 == key {
      assert Set(d, key, value)[1..] == d[1..];
    } else {
      UniqueSet(d[1..], key, value);
      GetSet(d[1..], key, value, d[0].0);
      assert Set(d, key, value)[1..] == Set(d[1..], key, value);
    }
  }

  lemma {:induction false} UniqueWithout(d: seq<Pair>, key: string)
    requires Unique(d)
    ensures Unique(Without(d, key))
  {
    if d != [] {
      UniqueWithout(d[1..], key);
      if d[0].0 != key {
        GetWithout(d[1..], key, d[0].0);
        assert Without(d, key)[1..] == Without(d[1..], key);
      }
    }
  }

  lemma {:induction false} UniqueDict(pairs: seq<Pair>)
    ensures Unique(Dict(pairs))
  {
    if pairs != [] {
      var init, last := pairs[..|pairs| - 1], pairs[|pairs| - 1];
      UniqueDict(init);
      UniqueSet(Dict(init), last.0, last.1);
    }
  }

  lemma {:induction false} GetInit(d: seq<Pair>, k: string)
    requires d != [] && Get(d, k).None?
    ensures Get(d[..|d| - 1], k).None? && d[|d| - 1].0 != k
  {
    if |d| > 1 {
      GetInit(d[1..], k);
      assert d[..|d| - 1][1..] == d[1..][..|d| - 2];
    }
  }

  lemma {:induction false} UniqueInit(d: seq<Pair>)
    requires d != [] && Unique(d)
    ensures Unique(d[..|d| - 1]) && Get(d[..|d| - 1], d[|d| - 1].0).None?
  {
    if |d| > 1 {
      UniqueInit(d[1..]);
      GetInit(d[1..], d[0].0);
      assert d[..|d| - 1][1..] == d[1..][..|d| - 2];
    }
  }

  /** A dictionary's items make the same dictionary again. */
  lemma {:induction false} DictOfItems(d: seq<Pair>)
    requires Unique(d)
    ensures Dict(d) == d
    decreases |d|
  {
    if d != [] {
      var init, last := d[..|d| - 1], d[|d| - 1];
      UniqueInit(d);
      DictOfItems(init);
      SetNew(init, last.0, last.1);
      assert d == init + [last];
    }
  }

  /** Of a repeated key the last value counts. */
  lemma {:induction false} LastValueCounts(pairs: seq<Pair>, key: string, value: string, later: seq<Pair>)
    requires forall i :: 0 <= i < |later| ==> later[i].0 != key
    ensures Get(Dict(pairs + [(key, value)] + later), key) == Some(value)
    decreases |later|
  {
    var all := pairs + [(key, value)] + later;
    if later == [] {
      assert all[..|all| - 1] == pairs && all[|all| - 1] == (key, value);
      GetSet(Dict(pairs), key, value, key);
    } else {
      var last := later[|later| - 1];
      assert all[..|all| - 1] == pairs + [(key, value)] + later[..|later| - 1] && all[|all| - 1] == last;
      LastValueCounts(pairs, key, value, later[..|later| - 1]);
      GetSet(Dict(all[..|all| - 1]), last.0, last.1, key);
    }
  }

  // ---------------------------------------------------------------------------
  // Moving one key to another
  // ---------------------------------------------------------------------------

  /** Drops `dropped`, and hands the value of `from` over to `to`. */
  function Moved(d: seq<Pair>, from: string, to: string, dropped: string): seq<Pair> {
    var kept := Without(Without(d, from), dropped);
    if Get(d, from).Some? then Set(kept, to, Get(d, from).value) else kept
  }

  /** The entries that neither rewriter touches. */
  function Others(d: seq<Pair>, a: string, b: string, c: string): seq<Pair> {
    Without(Without(Without(d, a), c), b)
  }

  lemma MovedUnique(d: seq<Pair>, from: string, to: string, dropped: string)
    requires Unique(d)
    ensures Unique(Moved(d, from, to, dropped))
  {
    UniqueWithout(d, from);
    UniqueWithout(Without(d, from), dropped);
    if Get(d, from).Some? {
      UniqueSet(Without(Without(d, from), dropped), to, Get(d, from).value);
    }
  }

  /** What a move leaves under each key. */
  lemma MovedGet(d: seq<Pair>, from: string, to: string, dropped: string, k: string)
    requires from != to && to != dropped && from != dropped
    ensures Get(Moved(d, from, to, dropped), k)
         == if k == from || k == dropped then None
            else if k == to && Get(d, from).Some? then Get(d, from)
            else Get(d, k)
  {
    var kept := Without(Without(d, from), dropped);
    GetWithout(d, from, k);
    GetWithout(Without(d, from), dropped, k);
    if Get(d, from).Some? {
      GetSet(kept, to, Get(d, from).value, k);
    }
  }

  /** A second move in the same direction finds nothing to do. */
  lemma MovedTwice(d: seq<Pair>, from: string, to: string, dropped: string)
    requires from != to && to != dropped && from != dropped
    ensures Moved(Moved(d, from, to, dropped), from, to, dropped) == Moved(d, from, to, dropped)
  {
    var once := Moved(d, from, to, dropped);
    MovedGet(d, from, to, dropped, from);
    MovedGet(d, from, to, dropped, dropped);
    WithoutAbsent(once, from);
    WithoutAbsent(once, dropped);
  }

  lemma MovedOthers(d: seq<Pair>, from: string, to: string, dropped: string)
    requires from != to && to != dropped && from != dropped
    ensures Without(Moved(d, from, to, dropped), to) == Others(d, from, to, dropped)
  {
    var kept := Without(Without(d, from), dropped);
    if Get(d, from).Some? {
      WithoutSet(kept, to, Get(d, from).value, to);
    }
  }

  function Entry(key: string, value: Option<string>): seq<Pair> {
    if value.Some? then [(key, value.value)] else []
  }

  /** There and back again: the untouched entries in their order, then the moved value. */
  lemma MovedBack(d: seq<Pair>, from: string, to: string, dropped: string)
    requires from != to && to != dropped && from != dropped
    ensures Moved(Moved(d, from, to, dropped), to, from, dropped)
         == Others(d, from, to, dropped) + Entry(from, if Get(d, from).Some? then Get(d, from) else Get(d, to))
  {
    var there, others := Moved(d, from, to, dropped), Others(d, from, to, dropped);
    MovedGet(d, from, to, dropped, to);
    MovedOthers(d, from, to, dropped);
    GetWithout(Without(Without(d, from), dropped), to, dropped);
    GetWithout(Without(d, from), dropped, dropped);
    WithoutAbsent(others, dropped);
    OthersGet(d, from, to, dropped);
    if Get(there, to).Some? {
      SetNew(others, from, Get(there, to).value);
    } else {
      assert others + [] == others;
    }
  }

  lemma OthersGet(d: seq<Pair>, from: string, to: string, dropped: string)
    ensures Get(Others(d, from, to, dropped), from).None? && Get(Others(d, from, to, dropped), to).None?
  {
    GetWithout(d, from, from);
    GetWithout(Without(d, from), dropped, from);
    GetWithout(Without(Without(d, from), dropped), to, from);
    GetWithout(Without(Without(d, from), dropped), to, to);
  }

  // ---------------------------------------------------------------------------
  // The URLs
  // ---------------------------------------------------------------------------

  /** A URL with a server part: the scheme as written, everything that stays, and the query pairs. */
  datatype Url = Url(scheme: string, rest: string, query: seq<Pair>)

  const POSTGRESQL := "postgresql"
  const ASYNCPG := "postgresql+asyncpg"
  const SSLMODE := "sslmode"
  const SSL := "ssl"
  const CHANNEL_BINDING := "channel_binding"

  lemma LowerTwice(s: string)
    ensures Lower(Lower(s)) == Lower(s)
  {
  }

  predicate Settled(s: string) {
    forall i :: 0 <= i < |s| ==> !('A' <= s[i] <= 'Z')
  }

  lemma LowerSettled(s: string)
    requires Settled(s)
    ensures Lower(s) == s
  {
  }

  lemma SchemesSettled()
    ensures Settled(POSTGRESQL) && Settled(ASYNCPG)
  {
  }

  lemma NamesDiffer()
    ensures SSLMODE != SSL && SSL != CHANNEL_BINDING && SSLMODE != CHANNEL_BINDING && POSTGRESQL != ASYNCPG
  {
    assert |SSLMODE| == 7 && |SSL| == 3 && |CHANNEL_BINDING| == 15 && |POSTGRESQL| == 10 && |ASYNCPG| == 18;
  }

  lemma SchemeNames(postgresql: string, asyncpg: string)
    requires postgresql == POSTGRESQL && asyncpg == ASYNCPG
    ensures Lower(postgresql) == postgresql && Lower(asyncpg) == asyncpg && postgresql != asyncpg
    ensures SSLMODE != SSL && SSL != CHANNEL_BINDING && SSLMODE != CHANNEL_BINDING
  {
    SchemesSettled();
    NamesDiffer();
    LowerSettled(postgresql);
    LowerSettled(asyncpg);
  }

  /** The prefix test looks at the scheme as written. */
  function AsyncpgScheme(scheme: string): string {
    Lower(if scheme == POSTGRESQL then ASYNCPG else scheme)
  }

  function PsycopgScheme(scheme: string): string {
    if Lower(scheme) == ASYNCPG then POSTGRESQL else Lower(scheme)
  }

  function Asyncpg(url: Url): Url {
    Url(AsyncpgScheme(url.scheme), url.rest, Moved(Dict(url.query), SSLMODE, SSL, CHANNEL_BINDING))
  }

  function Psycopg(url: Url): Url {
    Url(PsycopgScheme(url.scheme), url.rest, Moved(Dict(url.query), SSL, SSLMODE, CHANNEL_BINDING))
  }

  /** A Python dictionary of strings that is changed in place. */
  class OrderedDict {
    var items: seq<Pair>

    constructor (pairs: seq<Pair>)
      ensures items == Dict(pairs)
    {
      items := [];
      new;
      for i := 0 to |pairs|
        modifies this
        invariant items == Dict(pairs[..i])
      {
        assert pairs[..i + 1][..i] == pairs[..i];
        Store(pairs[i].0, pairs[i].1);
      }
      assert pairs[..|pairs|] == pairs;
    }

    method Store(key: string, value: string)
      modifies this
      ensures items == Set(old(items), key, value)
    {
      items := Set(items, key, value);
    }

    method Pop(key: string) returns (value: Option<string>)
      modifies this
      ensures value == Get(old(items), key) && items == Without(old(items), key)
    {
      value := Get(items, key);
      items := Without(items, key);
    }
  }

  /** `Settings.use_asyncpg_driver` on a string. */
  method UseAsyncpgDriver(url: Url) returns (r: Url)
    ensures r == Asyncpg(url)
  {
    var scheme := url.scheme;
    if scheme == POSTGRESQL {
      scheme := ASYNCPG;
    }
    var query := new OrderedDict(url.query);
    var sslMode := query.Pop(SSLMODE);
    var binding := query.Pop(CHANNEL_BINDING);
    if sslMode.Some? {
      query.Store(SSL, sslMode.value);
    }
    return Url(Lower(scheme), url.rest, query.items);
  }

  /** `_psycopg_url`. */
  method PsycopgUrl(url: Url) returns (r: Url)
    ensures r == Psycopg(url)
  {
    var parsed := Lower(url.scheme);
    var scheme := if parsed == ASYNCPG then POSTGRESQL else parsed;
    var query := new OrderedDict(url.query);
    var ssl := query.Pop(SSL);
    var binding := query.Pop(CHANNEL_BINDING);
    if ssl.Some? {
      query.Store(SSLMODE, ssl.value);
    }
    return Url(scheme, url.rest, query.items);
  }

  // ---------------------------------------------------------------------------
  // How the rewriters fit together
  // ---------------------------------------------------------------------------

  /** The one family of schemes that takes two passes: PostgreSQL not written in lower case. */
  predicate MixedCase(url: Url) {
    Lower(url.scheme) == POSTGRESQL && url.scheme != POSTGRESQL
  }

  lemma QueryOfAsyncpg(pairs: seq<Pair>)
    ensures Dict(Moved(Dict(pairs), SSLMODE, SSL, CHANNEL_BINDING)) == Moved(Dict(pairs), SSLMODE, SSL, CHANNEL_BINDING)
  {
    UniqueDict(pairs);
    MovedUnique(Dict(pairs), SSLMODE, SSL, CHANNEL_BINDING);
    DictOfItems(Moved(Dict(pairs), SSLMODE, SSL, CHANNEL_BINDING));
  }

  lemma QueryOfPsycopg(pairs: seq<Pair>)
    ensures Dict(Moved(Dict(pairs), SSL, SSLMODE, CHANNEL_BINDING)) == Moved(Dict(pairs), SSL, SSLMODE, CHANNEL_BINDING)
  {
    UniqueDict(pairs);
    MovedUnique(Dict(pairs), SSL, SSLMODE, CHANNEL_BINDING);
    DictOfItems(Moved(Dict(pairs), SSL, SSLMODE, CHANNEL_BINDING));
  }

  /** Rewriting twice is rewriting once, except for PostgreSQL written with capitals: there the first
      pass only lowers the scheme and the second one changes the driver. */
  lemma AsyncpgIdempotentExactly(url: Url)
    ensures Asyncpg(Asyncpg(url)) == Asyncpg(url) <==> !MixedCase(url)
  {
    SchemeNames(POSTGRESQL, ASYNCPG);
    QueryOfAsyncpg(url.query);
    MovedTwice(Dict(url.query), SSLMODE, SSL, CHANNEL_BINDING);
    LowerTwice(url.scheme);
  }

  lemma PsycopgSchemeTwice(scheme: string)
    ensures PsycopgScheme(PsycopgScheme(scheme)) == PsycopgScheme(scheme)
  {
    SchemeNames(POSTGRESQL, ASYNCPG);
    LowerTwice(scheme);
  }

  lemma PsycopgIdempotent(url: Url)
    ensures Psycopg(Psycopg(url)) == Psycopg(url)
  {
    PsycopgSchemeTwice(url.scheme);
    PsycopgQueryTwice(url.query);
  }

  lemma PsycopgQueryTwice(pairs: seq<Pair>)
    ensures Moved(Dict(Moved(Dict(pairs), SSL, SSLMODE, CHANNEL_BINDING)), SSL, SSLMODE, CHANNEL_BINDING)
         == Moved(Dict(pairs), SSL, SSLMODE, CHANNEL_BINDING)
  {
    SchemeNames(POSTGRESQL, ASYNCPG);
    QueryOfPsycopg(pairs);
    MovedTwice(Dict(pairs), SSL, SSLMODE, CHANNEL_BINDING);
  }

  function ModeOf(d: seq<Pair>): Option<string> {
    if Get(d, SSLMODE).Some? then Get(d, SSLMODE) else Get(d, SSL)
  }

  /** What the application stores and what the checkpoint saver gets: the scheme is `postgresql` again,
      the untouched query entries keep their values and their order, the channel binding is gone, and
      the SSL mode follows at the end under its own name, taken from `ssl` where there was no
      `sslmode`. */
  lemma PsycopgAfterAsyncpg(url: Url)
    ensures Psycopg(Asyncpg(url)).rest == url.rest
    ensures Psycopg(Asyncpg(url)).scheme == if Lower(url.scheme) == ASYNCPG then POSTGRESQL else Lower(url.scheme)
    ensures Psycopg(Asyncpg(url)).query
         == Others(Dict(url.query), SSLMODE, SSL, CHANNEL_BINDING) + Entry(SSLMODE, ModeOf(Dict(url.query)))
  {
    SchemeNames(POSTGRESQL, ASYNCPG);
    QueryOfAsyncpg(url.query);
    MovedBack(Dict(url.query), SSLMODE, SSL, CHANNEL_BINDING);
    LowerTwice(url.scheme);
  }

  /** What asyncpg gets under each query key: the SSL mode under its own name, no channel binding, and
      everything else as it was; and the driver for PostgreSQL in lower case. */
  lemma AsyncpgMeaning(url: Url, key: string)
    ensures var d, r := Dict(url.query), Asyncpg(url);
            && r.rest == url.rest
            && r.scheme == (if url.scheme == "postgresql" then "postgresql+asyncpg" else Lower(url.scheme))
            && Get(r.query, key)
               == if key == "sslmode" || key == "channel_binding" then None
                  else if key == "ssl" && Get(d, "sslmode").Some? then Get(d, "sslmode")
                  else Get(d, key)
  {
    SchemeNames(POSTGRESQL, ASYNCPG);
    MovedGet(Dict(url.query), SSLMODE, SSL, CHANNEL_BINDING, key);
  }

  /** What psycopg gets: the same the other way round, without the driver. */
  lemma PsycopgMeaning(url: Url, key: string)
    ensures var d, r := Dict(url.query), Psycopg(url);
            && r.rest == url.rest
            && r.scheme == (if Lower(url.scheme) == "postgresql+asyncpg" then "postgresql" else Lower(url.scheme))
            && Get(r.query, key)
               == if key == "ssl" || key == "channel_binding" then None
                  else if key == "sslmode" && Get(d, "ssl").Some? then Get(d, "ssl")
                  else Get(d, key)
  {
    SchemeNames(POSTGRESQL, ASYNCPG);
    MovedGet(Dict(url.query), SSL, SSLMODE, CHANNEL_BINDING, key);
  }

  /** The value and the order of every other key survive both rewriters. */
  lemma OtherKeysSurvive(url: Url, key: string)
    requires key != SSLMODE && key != SSL && key != CHANNEL_BINDING
    ensures Get(Psycopg(Asyncpg(url)).query, key) == Get(Dict(url.query), key)
    ensures Get(Psycopg(Asyncpg(url)).query, CHANNEL_BINDING).None? && Get(Psycopg(Asyncpg(url)).query, SSL).None?
  {
    var d := Dict(url.query);
    SchemeNames(POSTGRESQL, ASYNCPG);
    QueryOfAsyncpg(url.query);
    var there := Moved(d, SSLMODE, SSL, CHANNEL_BINDING);
    MovedGet(d, SSLMODE, SSL, CHANNEL_BINDING, key);
    MovedGet(there, SSL, SSLMODE, CHANNEL_BINDING, key);
    MovedGet(there, SSL, SSLMODE, CHANNEL_BINDING, CHANNEL_BINDING);
    MovedGet(there, SSL, SSLMODE, CHANNEL_BINDING, SSL);
  }

  lemma SchemeRestored(scheme: string)
    ensures AsyncpgScheme(PsycopgScheme(AsyncpgScheme(scheme))) == AsyncpgScheme(scheme)
       <==> !(Lower(scheme) == POSTGRESQL && scheme != POSTGRESQL)
  {
    SchemeNames(POSTGRESQL, ASYNCPG);
    LowerTwice(scheme);
    LowerTwice(Lower(scheme));
  }

  /** A query without `from` and `dropped`, moved away and back: the `to` entry ends up last. */
  lemma QueryRestored(d: seq<Pair>, from: string, to: string, dropped: string)
    requires from != to && to != dropped && from != dropped
    requires Get(d, from).None? && Get(d, dropped).None?
    ensures Moved(Moved(d, to, from, dropped), from, to, dropped) == Without(d, to) + Entry(to, Get(d, to))
  {
    MovedBack(d, to, from, dropped);
    GetWithout(d, to, from);
    GetWithout(d, to, dropped);
    WithoutAbsent(Without(d, to), dropped);
    WithoutAbsent(Without(d, to), from);
  }

  lemma StoredQueryRestored(pairs: seq<Pair>)
    ensures var stored := Moved(Dict(pairs), SSLMODE, SSL, CHANNEL_BINDING);
            Moved(Dict(Moved(Dict(stored), SSL, SSLMODE, CHANNEL_BINDING)), SSLMODE, SSL, CHANNEL_BINDING)
            == Without(stored, SSL) + Entry(SSL, Get(stored, SSL))
  {
    var d := Dict(pairs);
    SchemeNames(POSTGRESQL, ASYNCPG);
    QueryOfAsyncpg(pairs);
    MovedGet(d, SSLMODE, SSL, CHANNEL_BINDING, SSLMODE);
    MovedGet(d, SSLMODE, SSL, CHANNEL_BINDING, CHANNEL_BINDING);
    QueryRestored(Moved(d, SSLMODE, SSL, CHANNEL_BINDING), SSLMODE, SSL, CHANNEL_BINDING);
    QueryOfPsycopg(Moved(d, SSLMODE, SSL, CHANNEL_BINDING));
  }

  /** Going to psycopg and back restores an application URL exactly when its scheme was settled and
      `ssl`, if any, came last. */
  lemma AsyncpgRestoredExactly(url: Url)
    ensures Asyncpg(Psycopg(Asyncpg(url))) == Asyncpg(url)
       <==> !MixedCase(url) && SslIsLast(Asyncpg(url).query)
  {
    SchemeRestored(url.scheme);
    StoredQueryRestored(url.query);
    UniqueDict(url.query);
    MovedUnique(Dict(url.query), SSLMODE, SSL, CHANNEL_BINDING);
    SslLastOrMoved(Asyncpg(url).query);
  }

  predicate SslIsLast(d: seq<Pair>) {
    Get(d, SSL).Some? ==> d[|d| - 1].0 == SSL
  }

  lemma SslLastOrMoved(d: seq<Pair>)
    requires Unique(d)
    ensures d == Without(d, SSL) + Entry(SSL, Get(d, SSL)) <==> SslIsLast(d)
  {
    if Get(d, SSL).None? {
      WithoutAbsent(d, SSL);
    } else if SslIsLast(d) {
      UniqueInit(d);
      WithoutLast(d, SSL);
    }
  }

  lemma {:induction false} WithoutLast(d: seq<Pair>, key: string)
    requires d != [] && d[|d| - 1].0 == key && Get(d[..|d| - 1], key).None?
    ensures Without(d, key) == d[..|d| - 1] && Get(d, key) == Some(d[|d| - 1].1)
  {
    if |d| > 1 {
      assert d[..|d| - 1][1..] == d[1..][..|d| - 2];
      WithoutLast(d[1..], key);
      assert d[..|d| - 1] == [d[0]] + d[1..][..|d| - 2];
    }
  }
}
