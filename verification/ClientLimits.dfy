/**
 The rate limiter over sequences of calls by any clients: each client, method
 and route has its own budget, which no other traffic touches.
 */
module ClientLimits {
  import opened Domain
  import opened RateLimit

  // --------------------------------------------------------------------- keys

  predicate Lacks(s: string, c: char) {
    forall i :: 0 <= i < |s| ==> s[i] != c
  }

  /** What HTTP and the router provide: addresses and method names without the separators, and absolute paths. */
  predicate WellFormed(r: HttpRequest) {
    && (r.ip.Some? ==> Lacks(r.ip.value, '/'))
    && Lacks(r.verb, '/') && Lacks(r.verb, ':')
    && "/" <= r.path && (r.route.Some? ==> "/" <= r.route.value)
  }

  /** Two requests are of the same client, method and route. */
  predicate SameClient(a: HttpRequest, b: HttpRequest) {
    && (a.ip == b.ip || (a.ip.None? && b.ip == Some("unknown-ip")) || (b.ip.None? && a.ip == Some("unknown-ip")))
    && a.verb == b.verb
    && (if a.route.Some? then a.route.value else a.path) == (if b.route.Some? then b.route.value else b.path)
  }

  lemma FirstSlash(s: string, a: string, p: string)
    requires s == a + p && Lacks(a, '/') && "/" <= p
    ensures |a| < |s| && s[|a|] == '/' && forall i :: 0 <= i < |a| ==> s[i] != '/'
    ensures s[..|a|] == a && s[|a|..] == p
  {
  }

  lemma LastColon(s: string, a: string, v: string)
    requires s == a + ":" + v && Lacks(v, ':')
    ensures |a| < |s| && s[|a|] == ':' && forall i :: |a| < i < |s| ==> s[i] != ':'
    ensures s[..|a|] == a && s[|a| + 1..] == v
  {
  }

  function Identifier(r: HttpRequest): string {
    if r.ip.Some? then r.ip.value else "unknown-ip"
  }

  function PathOf(r: HttpRequest): string {
    if r.route.Some? then r.route.value else r.path
  }

  lemma KeyParts(r: HttpRequest, client: string, head: string)
    requires WellFormed(r) && client == "rate-limit:" + Identifier(r) && head == client + ":" + r.verb + ":"
    ensures KeyOf(r) == head + PathOf(r) && Lacks(head, '/') && "/" <= PathOf(r)
    ensures head[..|head| - 1] == client + ":" + r.verb && client[11..] == Identifier(r)
  {
    assert KeyOf(r) == client + ":" + r.verb + ":" + PathOf(r);
  }

  lemma HeadsAndPaths(key: string, x: string, p: string, y: string, q: string)
    requires key == x + p && key == y + q && Lacks(x, '/') && Lacks(y, '/') && "/" <= p && "/" <= q
    ensures x == y && p == q
  {
    FirstSlash(key, x, p);
    FirstSlash(key, y, q);
  }

  lemma ClientsAndVerbs(x: string, i: string, v: string, j: string, w: string)
    requires x == i + ":" + v && x == j + ":" + w && Lacks(v, ':') && Lacks(w, ':')
    ensures i == j && v == w
  {
    LastColon(x, i, v);
    LastColon(x, j, w);
  }

  /** Requests share a counter exactly if they are of the same client, method and route. */
  lemma KeysTellClientsApart(a: HttpRequest, b: HttpRequest)
    requires WellFormed(a) && WellFormed(b)
    ensures KeyOf(a) == KeyOf(b) <==> SameClient(a, b)
  {
    if KeyOf(a) == KeyOf(b) { SameKeySameClient(a, b); }
  }

  lemma SameKeySameClient(a: HttpRequest, b: HttpRequest)
    requires WellFormed(a) && WellFormed(b) && KeyOf(a) == KeyOf(b)
    ensures Identifier(a) == Identifier(b) && a.verb == b.verb && PathOf(a) == PathOf(b)
  {
    var i, j := "rate-limit:" + Identifier(a), "rate-limit:" + Identifier(b);
    var x, y := i + ":" + a.verb + ":", j + ":" + b.verb + ":";
    KeyParts(a, i, x);
    KeyParts(b, j, y);
    HeadsAndPaths(KeyOf(a), x, PathOf(a), y, PathOf(b));
    ClientsAndVerbs(x[..|x| - 1], i, a.verb, j, b.verb);
  }

  // ----------------------------------------------------------------- sequences

  function CountersAfter(calls: seq<Call>, window: Time): map<Key, Counter> {
    if calls == [] then map[] else Guarded(CountersAfter(calls[..|calls| - 1], window), calls[|calls| - 1], window)
  }

  /** The call is counted for the client. */
  predicate Counts(call: Call, client: HttpRequest) {
    !call.isPublic && SameClient(call.request, client)
  }

  /** The call that opened the client's current window: the first counted one at or after the end of the last. */
  function Opening(calls: seq<Call>, client: HttpRequest, window: Time): (o: Option<nat>)
    ensures o.Some? ==> o.value < |calls| && Counts(calls[o.value], client)
  {
    if calls == [] then None
    else
      var n, o := |calls| - 1, Opening(calls[..|calls| - 1], client, window);
      if !Counts(calls[n], client) then o
      else if o.Some? && calls[n].at < calls[o.value].at + window then o
      else Some(n)
  }

  function CountedFrom(calls: seq<Call>, client: HttpRequest, from: nat): set<nat> {
    set k: nat | from <= k < |calls| && Counts(calls[k], client)
  }

  /** The client's calls in its current window. */
  function InWindow(calls: seq<Call>, client: HttpRequest, window: Time): set<nat> {
    var o := Opening(calls, client, window);
    if o.Some? then CountedFrom(calls, client, o.value) else {}
  }

  lemma CountedOneMore(calls: seq<Call>, client: HttpRequest, from: nat)
    requires from < |calls|
    ensures var n := |calls| - 1;
      |CountedFrom(calls, client, from)|
      == |CountedFrom(calls[..n], client, from)| + (if Counts(calls[n], client) then 1 else 0)
    ensures |CountedFrom(calls, client, |calls| - 1)| == if Counts(calls[|calls| - 1], client) then 1 else 0
  {
    var n := |calls| - 1;
    var last: set<nat> := if Counts(calls[n], client) then {n} else {};
    assert CountedFrom(calls, client, from) == CountedFrom(calls[..n], client, from) + last;
    assert CountedFrom(calls, client, n) == last;
  }

  predicate AllWellFormed(calls: seq<Call>) {
    forall k :: 0 <= k < |calls| ==> WellFormed(calls[k].request)
  }

  /** When the client's current window opened. */
  function OpenedAt(calls: seq<Call>, client: HttpRequest, window: Time): Option<Time> {
    var o := Opening(calls, client, window);
    if o.Some? then Some(calls[o.value].at) else None
  }

  /** A counter of `size` calls in a window that opened at `since`. */
  predicate Tally(c: Option<Counter>, size: nat, since: Option<Time>, window: Time) {
    c == if since.Some? then Some(Counter(size, Some(since.value + window))) else None
  }

  lemma WindowGrows(calls: seq<Call>, client: HttpRequest, window: Time)
    requires calls != []
    ensures var n, before := |calls| - 1, calls[..|calls| - 1];
      var since, at, goesOn := OpenedAt(before, client, window), calls[n].at, Counts(calls[n], client);
      && (!goesOn ==> OpenedAt(calls, client, window) == since
                      && |InWindow(calls, client, window)| == |InWindow(before, client, window)|)
      && (goesOn && since.Some? && at < since.value + window ==>
            OpenedAt(calls, client, window) == since
            && |InWindow(calls, client, window)| == |InWindow(before, client, window)| + 1)
      && (goesOn && !(since.Some? && at < since.value + window) ==>
            OpenedAt(calls, client, window) == Some(at) && |InWindow(calls, client, window)| == 1)
      && (since.Some? ==> |InWindow(before, client, window)| >= 1)
  {
    var o := Opening(calls[..|calls| - 1], client, window);
    if o.Some? {
      CountedOneMore(calls, client, o.value);
      assert o.value in CountedFrom(calls[..|calls| - 1], client, o.value);
    }
    CountedOneMore(calls, client, |calls| - 1);
  }

  lemma OneMoreTallied(c: Option<Counter>, c': Option<Counter>, counts: bool, at: Time, window: Time,
                       size: nat, size': nat, since: Option<Time>, since': Option<Time>)
    requires Tally(c, size, since, window) && (since.Some? ==> size >= 1)
    requires !counts ==> c' == c && since' == since && size' == size
    requires counts && since.Some? && at < since.value + window ==>
      since' == since && size' == size + 1
      && c' == Some(c.value.(count := c.value.count + 1))
    requires counts && !(since.Some? && at < since.value + window) ==>
      since' == Some(at) && size' == 1 && c' == Some(Counter(1, Some(at + window)))
    ensures Tally(c', size', since', window)
  {
  }

  lemma {:induction false} CountersTally(calls: seq<Call>, client: HttpRequest, window: Time)
    requires AllWellFormed(calls) && WellFormed(client)
    ensures Tally(CounterAt(CountersAfter(calls, window), KeyOf(client)), |InWindow(calls, client, window)|,
                  OpenedAt(calls, client, window), window)
  {
    if calls != [] {
      var before, last := calls[..|calls| - 1], calls[|calls| - 1];
      CountersTally(before, client, window);
      KeysTellClientsApart(last.request, client);
      WindowGrows(calls, client, window);
      var c := CounterAt(CountersAfter(before, window), KeyOf(client));
      var c' := CounterAt(CountersAfter(calls, window), KeyOf(client));
      CallTallies(CountersAfter(before, window), last, KeyOf(client), window, Counts(last, client), c, c');
      OneMoreTallied(c, c', Counts(last, client), last.at, window,
                     |InWindow(before, client, window)|, |InWindow(calls, client, window)|,
                     OpenedAt(before, client, window), OpenedAt(calls, client, window));
    }
  }

  /** What one call does to the counter of a key. */
  lemma CallTallies(counters: map<Key, Counter>, call: Call, key: Key, window: Time, counts: bool,
                    c: Option<Counter>, c': Option<Counter>)
    requires counts <==> !call.isPublic && KeyOf(call.request) == key
    requires c == CounterAt(counters, key) && c' == CounterAt(Guarded(counters, call, window), key)
    ensures !counts ==> c' == c
    ensures counts && Live(c, call.at) && c.value.count >= 1 ==> c' == Some(c.value.(count := c.value.count + 1))
    ensures counts && !Live(c, call.at) ==> c' == Some(Counter(1, Some(call.at + window)))
  {
  }

  /**
   Over any sequence of calls by any clients, a call passes exactly when it is
   on a public route or its client's calls on the route in the current window
   are within the maximum.
   */
  lemma {:induction false} ClientsHaveTheirOwnBudget(calls: seq<Call>, window: Time, max: nat)
    requires calls != [] && AllWellFormed(calls)
    ensures var last := calls[|calls| - 1];
      && (!last.isPublic ==> KeyOf(last.request) in CountersAfter(calls, window))
      && (!last.isPublic ==>
            (CountersAfter(calls, window)[KeyOf(last.request)].count <= max
             <==> |InWindow(calls, last.request, window)| <= max))
  {
    CountersTally(calls, calls[|calls| - 1].request, window);
  }

  /** Calls of other clients, before or between, change nothing for a client. */
  lemma {:induction false} OthersDoNotCount(calls: seq<Call>, others: seq<Call>, client: HttpRequest, window: Time)
    requires AllWellFormed(calls) && AllWellFormed(others) && WellFormed(client)
    requires forall k :: 0 <= k < |others| ==> !SameClient(others[k].request, client)
    ensures CounterAt(CountersAfter(calls + others, window), KeyOf(client))
            == CounterAt(CountersAfter(calls, window), KeyOf(client))
  {
    if others == [] {
      assert calls + others == calls;
    } else {
      var before := others[..|others| - 1];
      assert (calls + others)[..|calls + others| - 1] == calls + before;
      OthersDoNotCount(calls, before, client, window);
      KeysTellClientsApart(others[|others| - 1].request, client);
    }
  }
}
