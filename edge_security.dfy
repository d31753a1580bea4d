/** The edge function `netlify/edge-functions/security.ts`: URL filters for
    bots and spam, then a per-IP fixed-window rate limit kept in a key-value
    store as `count:timestamp`, with a timed block once the count passes the
    limit. The clock (`Math.floor(Date.now() / 1000)`) is the input `now`. */
module EdgeSecurity {
  import opened Wrappers
  import opened Text
  import opened Decimal

  const RATE_LIMIT: nat := 60
  const BLOCK_DURATION: nat := 300
  /** The counter window, in seconds. */
  const WINDOW: nat := 60

  /** The bodies of the case-insensitive `BOT_PATTERNS`; each is a literal
      text once its escapes are read. */
  const BOT_PATTERNS: seq<string> := [
    "Special:", "Talk:", "action=", "index.php", "wp-", "wordpress",
    ".env", ".git", ".sql", "admin", "login", "xmlrpc"]

  const SPAM_KEYWORDS: seq<string> := [
    "cbd", "casino", "porn", "sex", "viagra", "crypto", "bitcoin", "repair", "iphone repair"]

  /** The parsed request URL; `Href` is `url.toString()`. */
  datatype Url = Url(origin: string, pathname: string, search: string, hash: string)

  function Href(u: Url): string
  {
    u.origin + u.pathname + u.search + u.hash
  }

  datatype Response = NotFound | TooManyRequests | Next

  /** The HTTP status the edge answers with; `Next` hands over to the site. */
  function Status(r: Response): Option<nat>
  {
    match r
    case NotFound => Some(404)
    case TooManyRequests => Some(429)
    case Next => None
  }

  /** `BOT_PATTERNS.some(p => p.test(url.pathname + url.search))`. */
  predicate IsBot(u: Url)
  {
    exists i :: 0 <= i < |BOT_PATTERNS| && Contains(Lower(u.pathname + u.search), Lower(BOT_PATTERNS[i]))
  }

  /** `SPAM_KEYWORDS.some(k => url.toString().toLowerCase().includes(k))`. */
  predicate IsSpam(u: Url)
  {
    exists i :: 0 <= i < |SPAM_KEYWORDS| && Contains(Lower(Href(u)), SPAM_KEYWORDS[i])
  }

  predicate Filtered(u: Url)
  {
    IsBot(u) || IsSpam(u)
  }

  function CounterKey(ip: string): (k: string)
    ensures IsPrefix("rate_limit:", k)
  {
    "rate_limit:" + ip
  }

  function BlockKey(ip: string): string
  {
    "blocked:" + ip
  }

  lemma KeysDistinct(ip: string, ip2: string)
    ensures CounterKey(ip) != BlockKey(ip2)
    ensures IsPrefix("rate_limit:", CounterKey(ip)) && !IsPrefix("rate_limit:", BlockKey(ip2))
  {
    assert CounterKey(ip)[0] != BlockKey(ip2)[0];
    assert CounterKey(ip)[..11] == "rate_limit:";
  }

  /** A stored value with its expiry time, if it was set with a TTL. */
  datatype Entry = Entry(value: string, expires: Option<int>)

  /** What `get(key)` answers at time `now`: the value, unless it has expired. */
  function LiveValue(entries: map<string, Entry>, key: string, now: int): Option<string>
  {
    if key in entries && (entries[key].expires.None? || now < entries[key].expires.value)
    then Some(entries[key].value)
    else None
  }

  /** JavaScript truthiness of a `get` result. */
  predicate Truthy(v: Option<string>)
  {
    v.Some? && v.value != ""
  }

  datatype Counter = Counter(count: nat, timestamp: nat)

  /** `` `${count}:${timestamp}` ``. */
  function FormatCounter(c: Counter): string
  {
    NatToString(c.count) + ":" + NatToString(c.timestamp)
  }

  /** Position of the first `:`. */
  function ColonIndex(s: string): (r: Option<nat>)
    ensures r.Some? ==> r.value < |s| && s[r.value] == ':'
    ensures r.Some? ==> forall j :: 0 <= j < r.value ==> s[j] != ':'
    ensures r.None? ==> forall j :: 0 <= j < |s| ==> s[j] != ':'
  {
    if s == [] then None
    else if s[0] == ':' then Some(0)
    else match ColonIndex(s[1..])
      case None => None
      case Some(i) => Some(i + 1)
  }

  predicate IsNumeral(s: string)
  {
    s != [] && AllDigits(s)
  }

  /** The counter texts this function writes: two numerals around one `:`. */
  predicate WellFormedCounter(s: string)
  {
    match ColonIndex(s)
    case None => false
    case Some(k) => IsNumeral(s[..k]) && IsNumeral(s[k + 1..])
  }

  /** `requests.split(':')` followed by `parseInt(·, 10)` on both parts. */
  function ParseCounter(s: string): (c: Counter)
    requires WellFormedCounter(s)
  {
    var k := ColonIndex(s).value;
    Counter(ParseNat(s[..k]), ParseNat(s[k + 1..]))
  }

  lemma {:induction false} ColonIndexAfterDigits(a: string, rest: string)
    requires AllDigits(a) && |rest| > 0 && rest[0] == ':'
    ensures ColonIndex(a + rest) == Some(|a|)
    decreases |a|
  {
    if a != [] {
      assert (a + rest)[1..] == a[1..] + rest;
      ColonIndexAfterDigits(a[1..], rest);
    } else {
      assert a + rest == rest;
    }
  }

  /** Reading back a written counter gives the counter that was written. */
  lemma CounterRoundTrip(c: Counter)
    ensures WellFormedCounter(FormatCounter(c))
    ensures ParseCounter(FormatCounter(c)) == c
  {
    var a, b := NatToString(c.count), NatToString(c.timestamp);
    var s := FormatCounter(c);
    assert s == a + ":" + b;
    ColonIndexAfterDigits(a, ":" + b);
    assert s == a + (":" + b);
    assert s[..|a|] == a && s[|a| + 1..] == b;
    ParseNatRoundTrip(c.count);
    ParseNatRoundTrip(c.timestamp);
  }

  /** The default `'0:0'` is the zero counter. */
  lemma DefaultCounterIsZero()
    ensures WellFormedCounter("0:0") && ParseCounter("0:0") == Counter(0, 0)
  {
    CounterRoundTrip(Counter(0, 0));
    assert FormatCounter(Counter(0, 0)) == "0:0";
  }

  /** The reset: a counter whose window started 60 s or more ago restarts at
      zero from now. */
  function Window(c: Counter, now: nat): Counter
  {
    if now - c.timestamp >= WINDOW as int then Counter(0, now) else c
  }

  /** Every rate-limit key holds a well-formed counter. */
  predicate CountersWellFormed(entries: map<string, Entry>)
  {
    forall key {:trigger IsPrefix("rate_limit:", key)} ::
      key in entries && IsPrefix("rate_limit:", key) ==> WellFormedCounter(entries[key].value)
  }

  /** The stored text, or `'0:0'` when the key is missing (or empty). */
  function StoredCounter(entries: map<string, Entry>, ip: string, now: nat): (c: Counter)
    requires CountersWellFormed(entries)
  {
    DefaultCounterIsZero();
    var v := LiveValue(entries, CounterKey(ip), now);
    ParseCounter(if Truthy(v) then v.value else "0:0")
  }

  datatype Outcome = Outcome(response: Response, entries: map<string, Entry>)

  /** One request, as a function of the store before it. */
  function Step(entries: map<string, Entry>, u: Url, ip: string, now: nat): (o: Outcome)
    requires CountersWellFormed(entries)
    ensures CountersWellFormed(o.entries)
  {
    if Filtered(u) then Outcome(NotFound, entries) else Admit(entries, ip, now)
  }

  /** A request that passed the filters: the block check, then the count. */
  function Admit(entries: map<string, Entry>, ip: string, now: nat): (o: Outcome)
    requires CountersWellFormed(entries)
    ensures CountersWellFormed(o.entries)
  {
    if Truthy(LiveValue(entries, BlockKey(ip), now)) then Outcome(TooManyRequests, entries)
    else Count(entries, ip, now, Window(StoredCounter(entries, ip, now), now))
  }

  /** The count of an unblocked request in the window `c`: the raised counter
      is written, and passing the limit blocks the IP for 300 s. */
  function Count(entries: map<string, Entry>, ip: string, now: nat, c: Counter): (o: Outcome)
    requires CountersWellFormed(entries)
    ensures CountersWellFormed(o.entries)
  {
    var next := Counter(c.count + 1, c.timestamp);
    CounterRoundTrip(next);
    KeysDistinct(ip, ip);
    var written := entries[CounterKey(ip) := Entry(FormatCounter(next), None)];
    if next.count > RATE_LIMIT
    then Outcome(TooManyRequests, written[BlockKey(ip) := Entry("true", Some(now + BLOCK_DURATION))])
    else Outcome(Next, written)
  }

  /** `context.env`: the key-value store, with a count of reads so that "not
      read" can be stated. */
  class KvStore {
    var entries: map<string, Entry>
    var readCount: nat

    constructor ()
      ensures entries == map[] && readCount == 0
    {
      entries := map[];
      readCount := 0;
    }

    method Get(key: string, now: nat) returns (v: Option<string>)
      modifies this
      ensures v == LiveValue(entries, key, now)
      ensures entries == old(entries) && readCount == old(readCount) + 1
    {
      v := LiveValue(entries, key, now);
      readCount := readCount + 1;
    }

    method Set(key: string, value: string, now: nat, ttl: Option<nat>)
      modifies this
      ensures entries == old(entries)[key := Entry(value, if ttl.Some? then Some(now + ttl.value) else None)]
      ensures readCount == old(readCount)
    {
      entries := entries[key := Entry(value, if ttl.Some? then Some(now + ttl.value) else None)];
    }
  }

  /** The default handler. */
  method Handle(kv: KvStore, u: Url, ip: string, now: nat) returns (r: Response)
    requires CountersWellFormed(kv.entries)
    modifies kv
    ensures r == Step(old(kv.entries), u, ip, now).response
    ensures kv.entries == Step(old(kv.entries), u, ip, now).entries
    ensures Filtered(u) ==> unchanged(kv)
  {
    if IsBot(u) {
      return NotFound;
    }
    if IsSpam(u) {
      return NotFound;
    }
    r := Limit(kv, ip, now);
  }

  /** The rate-limiting part of the handler, reached by requests that passed
      the filters. */
  method Limit(kv: KvStore, ip: string, now: nat) returns (r: Response)
    requires CountersWellFormed(kv.entries)
    modifies kv
    ensures r == Admit(old(kv.entries), ip, now).response
    ensures kv.entries == Admit(old(kv.entries), ip, now).entries
  {
    var count, timestamp := ReadWindow(kv, ip, now);
    var blocked := kv.Get(BlockKey(ip), now);
    if Truthy(blocked) {
      return TooManyRequests;
    }
    r := CountRequest(kv, ip, now, Counter(count, timestamp));
  }

  /** The increment, the write of the counter and, past the limit, the block. */
  method CountRequest(kv: KvStore, ip: string, now: nat, c: Counter) returns (r: Response)
    requires CountersWellFormed(kv.entries)
    modifies kv
    ensures r == Count(old(kv.entries), ip, now, c).response
    ensures kv.entries == Count(old(kv.entries), ip, now, c).entries
  {
    var count := c.count + 1;
    kv.Set(CounterKey(ip), FormatCounter(Counter(count, c.timestamp)), now, None);
    if count > RATE_LIMIT {
      kv.Set(BlockKey(ip), "true", now, Some(BLOCK_DURATION));
      return TooManyRequests;
    }
    return Next;
  }

  /** Reads the counter, with `'0:0'` for a missing one, and restarts its
      window when 60 s or more have passed. */
  method ReadWindow(kv: KvStore, ip: string, now: nat) returns (count: nat, timestamp: nat)
    requires CountersWellFormed(kv.entries)
    modifies kv
    ensures Counter(count, timestamp) == Window(StoredCounter(old(kv.entries), ip, now), now)
    ensures kv.entries == old(kv.entries) && kv.readCount == old(kv.readCount) + 1
  {
    var requests := kv.Get(CounterKey(ip), now);
    DefaultCounterIsZero();
    var parsed := ParseCounter(if Truthy(requests) then requests.value else "0:0");
    count, timestamp := parsed.count, parsed.timestamp;
    if now - timestamp >= WINDOW as int {
      count := 0;
      timestamp := now;
    }
  }

  /** Filtered requests are answered 404 and leave the store as it was. */
  lemma FilteredLeavesStore(entries: map<string, Entry>, u: Url, ip: string, now: nat)
    requires CountersWellFormed(entries) && Filtered(u)
    ensures Step(entries, u, ip, now) == Outcome(NotFound, entries)
  {
  }

  /** With no counter stored, the window starts afresh at `now` (once the
      clock is past its first minute). */
  lemma MissingCounterStartsWindow(entries: map<string, Entry>, ip: string, now: nat)
    requires CountersWellFormed(entries) && CounterKey(ip) !in entries && now >= WINDOW
    ensures Window(StoredCounter(entries, ip, now), now) == Counter(0, now)
  {
    DefaultCounterIsZero();
  }

  /** A blocked IP gets 429 and its counter is neither raised nor written. */
  lemma BlockedIsRefused(entries: map<string, Entry>, u: Url, ip: string, now: nat)
    requires CountersWellFormed(entries) && !Filtered(u) && Truthy(LiveValue(entries, BlockKey(ip), now))
    ensures Step(entries, u, ip, now) == Outcome(TooManyRequests, entries)
  {
  }

  /** Otherwise the counter goes up by one in its window; passing the limit
      blocks the IP for 300 s and answers 429. */
  lemma AdmittedIsCounted(entries: map<string, Entry>, u: Url, ip: string, now: nat)
    requires CountersWellFormed(entries) && !Filtered(u) && !Truthy(LiveValue(entries, BlockKey(ip), now))
    ensures var c := Window(StoredCounter(entries, ip, now), now);
      var o := Step(entries, u, ip, now);
      && CounterKey(ip) in o.entries
      && ParseCounter(o.entries[CounterKey(ip)].value) == Counter(c.count + 1, c.timestamp)
      && (c.count + 1 > RATE_LIMIT <==> o.response == TooManyRequests)
      && (c.count + 1 > RATE_LIMIT ==> o.entries[BlockKey(ip)] == Entry("true", Some(now + BLOCK_DURATION)))
      && (forall key :: key != CounterKey(ip) && key != BlockKey(ip) ==>
            (key in o.entries <==> key in entries) && (key in entries ==> o.entries[key] == entries[key]))
  {
    var c := Window(StoredCounter(entries, ip, now), now);
    assert Step(entries, u, ip, now) == Count(entries, ip, now, c);
    CountWrites(entries, ip, now, c);
    CountBlocks(entries, ip, now, c);
    CountLeavesOthers(entries, ip, now, c);
  }

  /** The count writes the raised counter, in the form it is read back in. */
  lemma CountWrites(entries: map<string, Entry>, ip: string, now: nat, c: Counter)
    requires CountersWellFormed(entries)
    ensures var o := Count(entries, ip, now, c);
      && CounterKey(ip) in o.entries
      && WellFormedCounter(o.entries[CounterKey(ip)].value)
      && ParseCounter(o.entries[CounterKey(ip)].value) == Counter(c.count + 1, c.timestamp)
  {
    var next := Counter(c.count + 1, c.timestamp);
    CounterRoundTrip(next);
    KeysDistinct(ip, ip);
    var o := Count(entries, ip, now, c);
    assert o.entries[CounterKey(ip)] == Entry(FormatCounter(next), None);
  }

  /** Past the limit, and only then, the count answers 429 and blocks the IP
      for 300 s. */
  lemma CountBlocks(entries: map<string, Entry>, ip: string, now: nat, c: Counter)
    requires CountersWellFormed(entries)
    ensures var o := Count(entries, ip, now, c);
      && (c.count + 1 > RATE_LIMIT <==> o.response == TooManyRequests)
      && (c.count + 1 > RATE_LIMIT ==> o.entries[BlockKey(ip)] == Entry("true", Some(now + BLOCK_DURATION)))
  {
  }

  /** The count touches no key but the IP's counter and block keys. */
  lemma CountLeavesOthers(entries: map<string, Entry>, ip: string, now: nat, c: Counter)
    requires CountersWellFormed(entries)
    ensures var o := Count(entries, ip, now, c);
      forall key :: key != CounterKey(ip) && key != BlockKey(ip) ==>
        (key in o.entries <==> key in entries) && (key in entries ==> o.entries[key] == entries[key])
  {
    var next := Counter(c.count + 1, c.timestamp);
    var written := entries[CounterKey(ip) := Entry(FormatCounter(next), None)];
    var o := Count(entries, ip, now, c);
    if next.count > RATE_LIMIT {
      assert o.entries == written[BlockKey(ip) := Entry("true", Some(now + BLOCK_DURATION))];
    } else {
      assert o.entries == written;
    }
  }

  /** The status the edge answers with: 404 exactly for a bot or spam URL,
      429 exactly for an unfiltered request from a blocked IP or one that
      takes its window past 60, and no status (the site answers) otherwise. */
  lemma StepStatus(entries: map<string, Entry>, u: Url, ip: string, now: nat)
    requires CountersWellFormed(entries)
    ensures var blocked := Truthy(LiveValue(entries, BlockKey(ip), now));
      var over := Window(StoredCounter(entries, ip, now), now).count + 1 > RATE_LIMIT;
      var s := Status(Step(entries, u, ip, now).response);
      && (s == Some(404) <==> Filtered(u))
      && (s == Some(429) <==> !Filtered(u) && (blocked || over))
      && (s == None <==> !Filtered(u) && !blocked && !over)
  {
    if !Filtered(u) && !Truthy(LiveValue(entries, BlockKey(ip), now)) {
      var c := Window(StoredCounter(entries, ip, now), now);
      assert Step(entries, u, ip, now) == Count(entries, ip, now, c);
      CountBlocks(entries, ip, now, c);
    }
  }

  /** The responses to a run of requests from one IP for one URL. */
  function Run(entries: map<string, Entry>, u: Url, ip: string, times: seq<nat>): (rs: seq<Response>)
    requires CountersWellFormed(entries)
    ensures |rs| == |times|
    decreases |times|
  {
    if times == [] then []
    else
      var o := Step(entries, u, ip, times[0]);
      [o.response] + Run(o.entries, u, ip, times[1..])
  }

  /** The store after `k` admitted requests of the window opened at `t0`, or
      with the IP blocked until after that window when `k > 60`. */
  predicate InWindow(entries: map<string, Entry>, ip: string, t0: nat, k: nat)
  {
    if k <= RATE_LIMIT then
      && CounterKey(ip) in entries && entries[CounterKey(ip)] == Entry(FormatCounter(Counter(k, t0)), None)
      && BlockKey(ip) !in entries
    else
      && BlockKey(ip) in entries && entries[BlockKey(ip)].value == "true"
      && entries[BlockKey(ip)].expires.Some? && entries[BlockKey(ip)].expires.value >= t0 + BLOCK_DURATION
  }

  /** One request inside the window moves the store from `k` to `k + 1`. */
  lemma StepInWindow(entries: map<string, Entry>, u: Url, ip: string, t0: nat, k: nat, now: nat)
    requires CountersWellFormed(entries) && !Filtered(u) && InWindow(entries, ip, t0, k)
    requires t0 <= now < t0 + WINDOW
    ensures Step(entries, u, ip, now).response == if k < RATE_LIMIT then Next else TooManyRequests
    ensures InWindow(Step(entries, u, ip, now).entries, ip, t0, k + 1)
  {
    KeysDistinct(ip, ip);
    if k <= RATE_LIMIT {
      var c := Counter(k, t0);
      assert LiveValue(entries, BlockKey(ip), now) == None;
      assert LiveValue(entries, CounterKey(ip), now) == Some(FormatCounter(c));
      CounterRoundTrip(c);
      assert StoredCounter(entries, ip, now) == c;
      assert Window(c, now) == c;
      assert Step(entries, u, ip, now) == Count(entries, ip, now, c);
      CountBlocks(entries, ip, now, c);
      CounterRoundTrip(Counter(k + 1, t0));
    } else {
      assert LiveValue(entries, BlockKey(ip), now) == Some("true");
      assert Step(entries, u, ip, now) == Outcome(TooManyRequests, entries);
    }
  }

  /** The responses of requests `k`, `k + 1`, ... of a window: the first 60 pass. */
  function Admitted(k: nat, n: nat): (rs: seq<Response>)
    ensures |rs| == n
  {
    seq(n, i => if k + i < RATE_LIMIT then Next else TooManyRequests)
  }

  lemma AdmittedCons(k: nat, n: nat)
    requires n > 0
    ensures Admitted(k, n) == [if k < RATE_LIMIT then Next else TooManyRequests] + Admitted(k + 1, n - 1)
  {
  }

  lemma {:induction false} RunInWindow(entries: map<string, Entry>, u: Url, ip: string, t0: nat, k: nat, times: seq<nat>)
    requires CountersWellFormed(entries) && !Filtered(u) && InWindow(entries, ip, t0, k)
    requires forall i :: 0 <= i < |times| ==> t0 <= times[i] < t0 + WINDOW
    ensures Run(entries, u, ip, times) == Admitted(k, |times|)
    decreases |times|
  {
    if times != [] {
      var o := Step(entries, u, ip, times[0]);
      StepInWindow(entries, u, ip, t0, k, times[0]);
      RunInWindow(o.entries, u, ip, t0, k + 1, times[1..]);
      AdmittedCons(k, |times|);
    }
  }

  /** The first request from an IP with nothing stored opens a window. */
  lemma FirstStep(entries: map<string, Entry>, u: Url, ip: string, now: nat)
    requires CountersWellFormed(entries) && !Filtered(u)
    requires CounterKey(ip) !in entries && BlockKey(ip) !in entries && now >= WINDOW
    ensures Step(entries, u, ip, now).response == Next
    ensures InWindow(Step(entries, u, ip, now).entries, ip, now, 1)
  {
    KeysDistinct(ip, ip);
    MissingCounterStartsWindow(entries, ip, now);
    CounterRoundTrip(Counter(1, now));
  }

  /** From an IP with nothing stored, within one minute of its first request,
      exactly the first 60 requests pass and every later one gets 429. */
  lemma {:induction false} SixtyPerWindow(entries: map<string, Entry>, u: Url, ip: string, times: seq<nat>)
    requires CountersWellFormed(entries) && !Filtered(u)
    requires CounterKey(ip) !in entries && BlockKey(ip) !in entries
    requires |times| > 0 && times[0] >= WINDOW
    requires forall i :: 0 <= i < |times| ==> times[0] <= times[i] < times[0] + WINDOW
    ensures Run(entries, u, ip, times) == Admitted(0, |times|)
  {
    var o := Step(entries, u, ip, times[0]);
    FirstStep(entries, u, ip, times[0]);
    TailInWindow(times);
    RunInWindow(o.entries, u, ip, times[0], 1, times[1..]);
    RunCons(entries, u, ip, times);
    AdmittedAfterFirst(Run(entries, u, ip, times), Run(o.entries, u, ip, times[1..]), |times|);
  }

  /** A first request that passes, followed by requests `1`, `2`, ... of the
      window, are the responses of requests `0`, `1`, ... of the window. */
  lemma AdmittedAfterFirst(rs: seq<Response>, rest: seq<Response>, n: nat)
    requires n > 0 && rs == [Next] + rest && rest == Admitted(1, n - 1)
    ensures rs == Admitted(0, n)
  {
    AdmittedCons(0, n);
  }

  lemma TailInWindow(times: seq<nat>)
    requires |times| > 0
    requires forall i :: 0 <= i < |times| ==> times[0] <= times[i] < times[0] + WINDOW
    ensures forall i :: 0 <= i < |times[1..]| ==> times[0] <= times[1..][i] < times[0] + WINDOW
  {
    forall i | 0 <= i < |times[1..]|
      ensures times[0] <= times[1..][i] < times[0] + WINDOW
    {
      assert times[1..][i] == times[i + 1];
    }
  }

  /** The first response of a run, then the run from the store it leaves. */
  lemma RunCons(entries: map<string, Entry>, u: Url, ip: string, times: seq<nat>)
    requires CountersWellFormed(entries) && times != []
    ensures var o := Step(entries, u, ip, times[0]);
      Run(entries, u, ip, times) == [o.response] + Run(o.entries, u, ip, times[1..])
  {
  }

  /** A lower-case pattern that occurs in the path makes the request a bot's. */
  lemma PatternInPath(u: Url, k: nat, i: nat)
    requires k < |BOT_PATTERNS| && OccursAt(u.pathname, BOT_PATTERNS[k], i) && Lower(BOT_PATTERNS[k]) == BOT_PATTERNS[k]
    ensures IsBot(u)
  {
    var p := BOT_PATTERNS[k];
    var s := Lower(u.pathname + u.search);
    LowerAppend(u.pathname, u.search);
    forall j | 0 <= j < |p| ensures s[i..i + |p|][j] == p[j] {
      assert s[i + j] == LowerChar(u.pathname[i + j]) == LowerChar(p[j]) == Lower(p)[j];
    }
    assert s[i..i + |p|] == p;
    OccursContains(s, p, i);
  }

  /** Pattern `k`, lower-cased, occurs at position `i` of the lower-cased
      path and query. */
  predicate PatternOccurs(u: Url, k: int, i: int)
  {
    0 <= k < |BOT_PATTERNS| && OccursAt(Lower(u.pathname + u.search), Lower(BOT_PATTERNS[k]), i)
  }

  /** Keyword `k` occurs at position `i` of the lower-cased URL. */
  predicate KeywordOccurs(u: Url, k: int, i: int)
  {
    0 <= k < |SPAM_KEYWORDS| && OccursAt(Lower(Href(u)), SPAM_KEYWORDS[k], i)
  }

  /** The bot test holds exactly when some pattern occurs somewhere in the
      path and query, letter case aside: the case-insensitive `test` of a
      literal pattern. */
  lemma BotIffPatternOccurs(u: Url)
    ensures IsBot(u) <==> exists k, i :: PatternOccurs(u, k, i)
  {
    var s := Lower(u.pathname + u.search);
    if IsBot(u) {
      var k :| 0 <= k < |BOT_PATTERNS| && Contains(s, Lower(BOT_PATTERNS[k]));
      var i := ContainsWitness(s, Lower(BOT_PATTERNS[k]));
      assert PatternOccurs(u, k, i);
    }
    if exists k, i :: PatternOccurs(u, k, i) {
      var k, i :| PatternOccurs(u, k, i);
      OccursContains(s, Lower(BOT_PATTERNS[k]), i);
    }
  }

  /** The spam test holds exactly when some keyword occurs somewhere in the
      lower-cased URL. */
  lemma SpamIffKeywordOccurs(u: Url)
    ensures IsSpam(u) <==> exists k, i :: KeywordOccurs(u, k, i)
  {
    var s := Lower(Href(u));
    if IsSpam(u) {
      var k :| 0 <= k < |SPAM_KEYWORDS| && Contains(s, SPAM_KEYWORDS[k]);
      var i := ContainsWitness(s, SPAM_KEYWORDS[k]);
      assert KeywordOccurs(u, k, i);
    }
    if exists k, i :: KeywordOccurs(u, k, i) {
      var k, i :| KeywordOccurs(u, k, i);
      OccursContains(s, SPAM_KEYWORDS[k], i);
    }
  }

  lemma AdminIsLowerCase()
    ensures BOT_PATTERNS[9] == "admin" && Lower("admin") == "admin"
  {
  }

  lemma LoginIsLowerCase()
    ensures BOT_PATTERNS[10] == "login" && Lower("login") == "login"
  {
  }

  /** The admin area is answered 404 at the edge: `admin` is a bot pattern. */
  lemma AdminPathsNotFound(u: Url, ip: string, now: nat, entries: map<string, Entry>)
    requires CountersWellFormed(entries) && IsPrefix("/admin", u.pathname)
    ensures Step(entries, u, ip, now).response == NotFound
  {
    AdminIsLowerCase();
    assert u.pathname[1..6] == "/admin"[1..6] == "admin";
    PatternInPath(u, 9, 1);
  }

  /** The same holds for the sign-in page: `login` is a bot pattern. */
  lemma LoginPathNotFound(u: Url, ip: string, now: nat, entries: map<string, Entry>)
    requires CountersWellFormed(entries) && IsPrefix("/auth/login", u.pathname)
    ensures Step(entries, u, ip, now).response == NotFound
  {
    LoginIsLowerCase();
    assert u.pathname[6..11] == "/auth/login"[6..11] == "login";
    PatternInPath(u, 10, 6);
  }

  /** `'iphone repair'` adds nothing to the list: any URL containing it
      already contains `'repair'`. */
  lemma IphoneRepairSubsumed(s: string)
    requires Contains(s, "iphone repair")
    ensures Contains(s, "repair")
  {
    assert "iphone repair"[7..13] == "repair";
    OccursContains("iphone repair", "repair", 7);
    ContainsTransitive(s, "iphone repair", "repair");
  }
}
