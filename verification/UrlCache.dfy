/**
  The stream-URL cache: entries expire, and an expired entry is erased only when somebody
  asks for it. `CacheModel` compares it with a plain log that never forgets.
 */
module CacheModel {
  import opened Wrappers

  datatype Entry = Entry(url: string, expiresAt: int)

  datatype Op =
    | Put(key: string, url: string, ttl: int, at: int)
    | Get(key: string, at: int)
    | Clear(at: int)

  // ----- the cache -----

  /** What a lookup answers. */
  function Lookup(cache: map<string, Entry>, key: string, now: int): Option<string> {
    if key in cache && cache[key].expiresAt > now then Some(cache[key].url) else None
  }

  function Apply(cache: map<string, Entry>, op: Op): map<string, Entry> {
    match op
    case Put(key, url, ttl, at) => cache[key := Entry(url, at + ttl)]
    case Get(key, at) => if key in cache && !(cache[key].expiresAt > at) then cache - {key} else cache
    case Clear(_) => map[]
  }

  function Run(ops: seq<Op>): map<string, Entry> {
    if ops == [] then map[] else Apply(Run(ops[..|ops| - 1]), ops[|ops| - 1])
  }

  // ----- the log -----

  /** The last value put for a key since the last clear. */
  function LastPut(ops: seq<Op>, key: string): Option<Entry> {
    if ops == [] then None
    else
      match ops[|ops| - 1]
      case Put(k, url, ttl, at) => if k == key then Some(Entry(url, at + ttl)) else LastPut(ops[..|ops| - 1], key)
      case Get(_, _) => LastPut(ops[..|ops| - 1], key)
      case Clear(_) => None
  }

  function Answer(ops: seq<Op>, key: string, now: int): Option<string> {
    match LastPut(ops, key)
    case Some(entry) => if entry.expiresAt > now then Some(entry.url) else None
    case None => None
  }

  ghost predicate ClockRises(ops: seq<Op>, now: int) {
    && (forall i, j | 0 <= i <= j < |ops| :: ops[i].at <= ops[j].at)
    && (forall i | 0 <= i < |ops| :: ops[i].at <= now)
  }

  /** An entry is missing only if it was never put since the clear, or has expired. */
  lemma {:induction false} CacheHoldsLastPut(ops: seq<Op>, key: string, now: int)
    requires ClockRises(ops, now)
    ensures key in Run(ops) ==> LastPut(ops, key) == Some(Run(ops)[key])
    ensures key !in Run(ops) && LastPut(ops, key).Some? ==> LastPut(ops, key).value.expiresAt <= now
  {
    if ops != [] {
      CacheHoldsLastPut(ops[..|ops| - 1], key, ops[|ops| - 1].at);
    }
  }

  /** After any run the cache answers as the log does: lazy erasure cannot be observed. */
  lemma {:induction false} AgreesWithLog(ops: seq<Op>, key: string, now: int)
    requires ClockRises(ops, now)
    ensures Lookup(Run(ops), key, now) == Answer(ops, key, now)
  {
    CacheHoldsLastPut(ops, key, now);
  }

  predicate IsGet(op: Op) {
    op.Get?
  }

  /** So dropping any lookup from a run changes no later answer. */
  lemma LookupsLeaveNoTrace(before: seq<Op>, g: Op, after: seq<Op>, key: string, now: int)
    requires IsGet(g) && ClockRises(before + [g] + after, now)
    ensures Lookup(Run(before + [g] + after), key, now) == Lookup(Run(before + after), key, now)
  {
    var long, short := before + [g] + after, before + after;
    assert forall i | 0 <= i < |short| :: short[i] == long[if i < |before| then i else i + 1];
    AgreesWithLog(long, key, now);
    AgreesWithLog(short, key, now);
    LastPutSkipsGet(before, g, after, key);
  }

  lemma {:induction false} LastPutSkipsGet(before: seq<Op>, g: Op, after: seq<Op>, key: string)
    requires IsGet(g)
    ensures LastPut(before + [g] + after, key) == LastPut(before + after, key)
  {
    if after == [] {
      assert before + [g] + after == before + [g] && before + after == before;
      assert (before + [g])[..|before|] == before;
    } else {
      var n := |after| - 1;
      LastPutSkipsGet(before, g, after[..n], key);
      assert (before + [g] + after)[..|before + [g] + after| - 1] == before + [g] + after[..n];
      assert (before + after)[..|before + after| - 1] == before + after[..n];
    }
  }

  predicate Replaces(op: Op, key: string) {
    op.Clear? || (op.Put? && op.key == key)
  }

  /** What is put is answered until it expires and not after, as long as nothing replaces it. */
  lemma {:induction false} PutLasts(before: seq<Op>, put: Op, after: seq<Op>, now: int)
    requires put.Put? && ClockRises(before + [put] + after, now)
    requires forall i | 0 <= i < |after| :: !Replaces(after[i], put.key)
    ensures Lookup(Run(before + [put] + after), put.key, now) == if now < put.at + put.ttl then Some(put.url) else None
  {
    AgreesWithLog(before + [put] + after, put.key, now);
    LastPutIs(before, put, after);
  }

  lemma {:induction false} LastPutIs(before: seq<Op>, put: Op, after: seq<Op>)
    requires put.Put? && forall i | 0 <= i < |after| :: !Replaces(after[i], put.key)
    ensures LastPut(before + [put] + after, put.key) == Some(Entry(put.url, put.at + put.ttl))
  {
    var all := before + [put] + after;
    if after == [] {
      assert all == before + [put];
    } else {
      var n := |after| - 1;
      assert all[..|all| - 1] == before + [put] + after[..n];
      LastPutIs(before, put, after[..n]);
    }
  }

  /** A rising clock is needed: if it steps back, an earlier lookup shows. */
  lemma ErasureShowsIfClockStepsBack()
    ensures var ops := [Put("k", "u", 5, 0), Get("k", 9)];
            Lookup(Run(ops), "k", 3) == None && Answer(ops, "k", 3) == Some("u")
  {
    var put, get := Put("k", "u", 5, 0), Get("k", 9);
    assert [put, get][..1] == [put] && [put][..0] == [];
    assert Run([put]) == map["k" := Entry("u", 5)];
    assert Run([put, get]) == Apply(Run([put]), get);
    assert LastPut([put], "k") == Some(Entry("u", 5));
  }
}

module UrlCaching {
  import opened Wrappers
  import opened CacheModel

  const TWO_HOURS := 7200

  predicate StartsWith(s: string, prefix: string) {
    prefix <= s
  }

  predicate Contains(s: string, part: string) {
    exists i | 0 <= i <= |s| :: part <= s[i..]
  }

  /** Streams and local files, which are opened as they are. */
  predicate Direct(query: string) {
    if StartsWith(query, "http://") || StartsWith(query, "https://")
    then !Contains(query, "youtube.com") && !Contains(query, "youtu.be")
    else !Contains(query, "://") && '.' in query
  }

  lemma ContainsMiddle(a: string, part: string, b: string)
    ensures Contains(a + part + b, part)
  {
    var s := a + part + b;
    assert s[|a|..] == part + b;
    assert part <= s[|a|..];
  }

  /** A web link to YouTube, wherever it names the site, is never opened as it is. */
  lemma YouTubeIsExtracted(a: string, b: string, secure: bool, brief: bool)
    ensures !Direct((if secure then "https://" else "http://") + a + (if brief then "youtu.be" else "youtube.com") + b)
  {
    var scheme, site := if secure then "https://" else "http://", if brief then "youtu.be" else "youtube.com";
    var query := scheme + a + site + b;
    assert query == scheme + (a + site + b);
    assert StartsWith(query, scheme);
    ContainsMiddle(scheme + a, site, b);
    hide Contains;
  }

  /** What names no scheme is opened as it is exactly if it has a dot, as a file name does; other schemes are not. */
  lemma PlainTextIsDirectIff(query: string)
    ensures !Contains(query, "://") ==> (Direct(query) <==> exists i | 0 <= i < |query| :: query[i] == '.')
    ensures Contains(query, "://") && !("http://" <= query) && !("https://" <= query) ==> !Direct(query)
  {
    if StartsWith(query, "http://") {
      assert "http://"[4..] == "://" && "://" <= query[4..];
    }
    if StartsWith(query, "https://") {
      assert "https://"[5..] == "://" && "://" <= query[5..];
    }
  }

  predicate Blank(c: char) {
    c == '\n' || c == '\r' || c == ' '
  }

  /** The text without the blanks at its end. */
  function TrimEnd(s: string): (r: string)
    ensures r <= s && (r != "" ==> !Blank(r[|r| - 1]))
    ensures forall i | |r| <= i < |s| :: Blank(s[i])
  {
    if s != "" && Blank(s[|s| - 1]) then TrimEnd(s[..|s| - 1]) else s
  }

  method StripTrailing(s: string) returns (r: string)
    ensures r == TrimEnd(s)
  {
    r := s;
    while r != "" && Blank(r[|r| - 1])
      invariant TrimEnd(r) == TrimEnd(s)
      decreases |r|
    {
      r := r[..|r| - 1];
    }
  }

  class StreamUrlCache {
    var cache: map<string, Entry>
    ghost var ops: seq<Op>  // every call so far

    ghost predicate Valid()
      reads this
    {
      cache == Run(ops)
    }

    constructor ()
      ensures Valid() && ops == []
    {
      cache, ops := map[], [];
    }

    method Get(key: string, now: int) returns (url: Option<string>)
      requires Valid()
      modifies this
      ensures Valid() && ops == old(ops) + [CacheModel.Get(key, now)]
      ensures url == Lookup(old(cache), key, now)
      ensures ClockRises(old(ops), now) ==> url == Answer(old(ops), key, now)
    {
      if ClockRises(ops, now) {
        AgreesWithLog(ops, key, now);
      }
      ops := ops + [CacheModel.Get(key, now)];
      assert ops[..|ops| - 1] == old(ops);
      if key in cache {
        if cache[key].expiresAt > now {
          return Some(cache[key].url);
        }
        cache := cache - {key};
      }
      return None;
    }

    method Put(key: string, val: string, now: int, ttl: int := TWO_HOURS)
      requires Valid()
      modifies this
      ensures Valid() && ops == old(ops) + [CacheModel.Put(key, val, ttl, now)]
    {
      ops := ops + [CacheModel.Put(key, val, ttl, now)];
      assert ops[..|ops| - 1] == old(ops);
      cache := cache[key := Entry(val, now + ttl)];
    }

    /**
      resolve_stream_url: `extracted` is what the extractor wrote, None if it could not be run.
      Only a non-empty result is kept, for two hours from `later`.
     */
    method ResolveStreamUrl(query: string, extracted: Option<string>, now: int, later: int) returns (url: string)
      requires Valid()
      modifies this
      ensures Valid()
      ensures var cached := Lookup(old(cache), query, now);
              var looked := old(ops) + [CacheModel.Get(query, now)];
              if Direct(query) then url == query && ops == old(ops)
              else if cached.Some? then url == cached.value && ops == looked
              else if extracted.None? || TrimEnd(extracted.value) == "" then url == query && ops == looked
              else url == TrimEnd(extracted.value) && ops == looked + [CacheModel.Put(query, url, 7200, later)]
    {
      if Direct(query) {
        return query;
      }
      var cached := Get(query, now);
      if cached.Some? {
        return cached.value;
      }
      if extracted.None? {
        return query;
      }
      var result := StripTrailing(extracted.value);
      if result == "" {
        return query;
      }
      Put(query, result, later);
      return result;
    }

    method Clear(now: int)
      requires Valid()
      modifies this
      ensures Valid() && ops == old(ops) + [CacheModel.Clear(now)]
    {
      ops := ops + [CacheModel.Clear(now)];
      cache := map[];
    }
  }
}
