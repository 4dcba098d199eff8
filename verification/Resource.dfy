/** Resource rules: a first-hit scan over a stably sorted list is a declarative choice over
    the list as the server sent it. */
module Resource {
  import opened Checksum
  import opened Wrappers
  import Wildcard

  // ---- Stable sorting

  /** A comparison like those slices.SortStableFunc accepts. */
  ghost predicate Ordering<T(!new)>(cmp: (T, T) -> int) {
    && (forall a, b :: cmp(a, b) <= 0 || cmp(b, a) <= 0)
    && (forall a, b :: cmp(a, b) == 0 <==> cmp(a, b) <= 0 && cmp(b, a) <= 0)
    && (forall a, b, c :: cmp(a, b) <= 0 && cmp(b, c) <= 0 ==> cmp(a, c) <= 0)
  }

  /** Input i goes before input j. */
  predicate Before<T>(items: seq<T>, cmp: (T, T) -> int, i: nat, j: nat)
    requires i < |items| && j < |items|
  {
    cmp(items[i], items[j]) < 0 || (cmp(items[i], items[j]) == 0 && i < j)
  }

  /** `order` lists every input once, each before all that follow it. */
  predicate StablySorted<T>(items: seq<T>, cmp: (T, T) -> int, order: seq<nat>) {
    && |order| == |items|
    && (forall x | 0 <= x < |order| :: order[x] < |items|)
    && (forall i | 0 <= i < |items| :: i in order)
    && (forall x, y | 0 <= x < y < |order| :: Before(items, cmp, order[x], order[y]))
  }

  /** The first n inputs in order. */
  ghost predicate SortedPrefix<T(!new)>(items: seq<T>, cmp: (T, T) -> int, order: seq<nat>, n: nat) {
    && n <= |items| && |order| == n
    && (forall x | 0 <= x < n :: order[x] < n)
    && (forall i | 0 <= i < n :: i in order)
    && (forall x, y | 0 <= x < y < n :: Before(items, cmp, order[x], order[y]))
  }

  lemma BeforeTrans<T(!new)>(items: seq<T>, cmp: (T, T) -> int, i: nat, j: nat, k: nat)
    requires Ordering(cmp) && i < |items| && j < |items| && k < |items|
    requires Before(items, cmp, i, j) && Before(items, cmp, j, k)
    ensures Before(items, cmp, i, k)
  {
  }

  /** Input n belongs right behind the last one it does not precede. */
  lemma InsertPlace<T(!new)>(items: seq<T>, cmp: (T, T) -> int, order: seq<nat>, n: nat, at: nat)
    requires Ordering(cmp) && SortedPrefix(items, cmp, order, n) && n < |items| && at <= n
    requires at > 0 ==> cmp(items[order[at - 1]], items[n]) <= 0
    requires forall x | at <= x < n :: cmp(items[order[x]], items[n]) > 0
    ensures forall x | 0 <= x < at :: Before(items, cmp, order[x], n)
    ensures forall x | at <= x < n :: Before(items, cmp, n, order[x])
  {
    forall x | 0 <= x < at ensures Before(items, cmp, order[x], n) {
      if x < at - 1 {
        assert Before(items, cmp, order[at - 1], n);
        BeforeTrans(items, cmp, order[x], order[at - 1], n);
      }
    }
  }

  lemma InsertSorted<T(!new)>(items: seq<T>, cmp: (T, T) -> int, order: seq<nat>, n: nat, at: nat)
    requires SortedPrefix(items, cmp, order, n) && n < |items| && at <= n
    requires forall x | 0 <= x < at :: Before(items, cmp, order[x], n)
    requires forall x | at <= x < n :: Before(items, cmp, n, order[x])
    ensures SortedPrefix(items, cmp, order[..at] + [n] + order[at..], n + 1)
  {
    hide Before;
    var r := order[..at] + [n] + order[at..];
    forall i | 0 <= i < n + 1 ensures i in r {
      if i < n {
        assert i in order;
        var x :| 0 <= x < |order| && order[x] == i;
        assert r[if x < at then x else x + 1] == i;
      } else {
        assert r[at] == n;
      }
    }
  }

  /** What slices.SortStableFunc computes, by insertion. */
  method StableSort<T(!new)>(items: seq<T>, cmp: (T, T) -> int) returns (order: seq<nat>)
    requires Ordering(cmp)
    ensures StablySorted(items, cmp, order)
  {
    order := [];
    for n := 0 to |items|
      invariant SortedPrefix(items, cmp, order, n)
    {
      var at := n;
      while at > 0 && cmp(items[order[at - 1]], items[n]) > 0
        invariant 0 <= at <= n && forall x | at <= x < n :: cmp(items[order[x]], items[n]) > 0
      {
        at := at - 1;
      }
      InsertPlace(items, cmp, order, n, at);
      InsertSorted(items, cmp, order, n, at);
      order := order[..at] + [n] + order[at..];
    }
  }

  /** The list after sorting. */
  ghost predicate SortedInto<T(!new)>(items: seq<T>, cmp: (T, T) -> int, order: seq<nat>, sorted: seq<T>) {
    StablySorted(items, cmp, order) && |sorted| == |order|
    && forall x | 0 <= x < |sorted| :: sorted[x] == items[order[x]]
  }

  /** The first hit in a stably sorted list goes before every other hit of the input. */
  lemma FirstHitIsLeast<T(!new)>(items: seq<T>, cmp: (T, T) -> int, order: seq<nat>, sorted: seq<T>,
                                 hit: T -> bool, x: nat, j: nat)
    requires SortedInto(items, cmp, order, sorted) && x <= |sorted|
    requires forall y | 0 <= y < x :: !hit(sorted[y])
    requires j < |items| && hit(items[j])
    ensures x < |sorted| && (j != order[x] ==> Before(items, cmp, order[x], j))
  {
    assert j in order;
    var y :| 0 <= y < |order| && order[y] == j;
    assert hit(sorted[y]) && x <= y;
  }

  // ---- IPv4 rules

  datatype Grant = Grant(appID: string, nodeGroupID: string)

  /** -1 stands for every supported protocol. */
  const ALL := -1

  function Pow2(n: nat): (p: nat)
    ensures p > 0
  {
    if n == 0 then 1 else 2 * Pow2(n - 1)
  }

  datatype Prefix = Prefix(addr: nat, bits: nat) {
    predicate Masked() {
      bits <= 32 && addr % Pow2(32 - bits) == 0
    }

    predicate Contains(dst: nat) {
      bits <= 32 && dst / Pow2(32 - bits) == addr / Pow2(32 - bits)
    }
  }

  /** A prefix contains the addresses from its base on that differ in the low bits only. */
  lemma PrefixMeans(p: Prefix, dst: nat)
    requires p.Masked()
    ensures p.Contains(dst) <==> p.addr <= dst < p.addr + Pow2(32 - p.bits)
  {
    hide Pow2;
    SameBlock(p.addr, dst, Pow2(32 - p.bits));
  }

  lemma SameBlock(base: nat, x: nat, n: nat)
    requires n > 0 && base % n == 0
    ensures x / n == base / n <==> base <= x < base + n
  {
    var q, k := x / n, base / n;
    DivMod(x, n);
    DivMod(base, n);
    if q < k {
      Apart(n, q, k);
    } else if k < q {
      Apart(n, k, q);
    }
  }

  lemma DivMod(x: nat, n: nat)
    requires n > 0
    ensures x == n * (x / n) + x % n && x % n < n
  {
  }

  lemma {:induction false} Apart(n: nat, a: nat, b: nat)
    requires a < b
    ensures n * a + n <= n * b
    decreases b - a
  {
    if a + 1 < b {
      Apart(n, a + 1, b);
    }
    assert n * (a + 1) == n * a + n;
  }

  datatype Rule = Rule(prefix: Prefix, grant: Grant, first: Word, last: Word, protocol: int)

  function Sign(a: int, b: int): int {
    if a < b then -1 else if a > b then 1 else 0
  }

  /** The comparator of the parser: longer prefixes first, then by address, then every
      specific protocol before "all". */
  function CompareRules(a: Rule, b: Rule): int {
    if Sign(b.prefix.bits, a.prefix.bits) != 0 then Sign(b.prefix.bits, a.prefix.bits)
    else if Sign(a.prefix.addr, b.prefix.addr) != 0 then Sign(a.prefix.addr, b.prefix.addr)
    else if a.protocol != b.protocol && a.protocol == ALL then 1
    else if a.protocol != b.protocol && b.protocol == ALL then -1
    else 0
  }

  lemma CompareRulesOrders()
    ensures Ordering(CompareRules)
  {
  }

  const ICMP: Byte := 1

  /** The rule covers the destination, the protocol and, unless it is ICMP, the port. */
  predicate Covers(rule: Rule, dst: nat, proto: Byte, port: Word) {
    && rule.prefix.Contains(dst) && (rule.protocol == ALL || rule.protocol == proto as int)
    && (proto != ICMP ==> rule.first <= port <= rule.last)
  }

  /** The rule a destination is granted by: longest prefix, then a rule for the protocol
      itself over one for all, then the earliest in the server's list. */
  ghost predicate Chosen(rules: seq<Rule>, dst: nat, proto: Byte, port: Word, i: nat) {
    && i < |rules| && Covers(rules[i], dst, proto, port)
    && forall j | 0 <= j < |rules| && Covers(rules[j], dst, proto, port) && j != i :: Better(rules, i, j)
  }

  predicate Better(rules: seq<Rule>, i: nat, j: nat)
    requires i < |rules| && j < |rules|
  {
    || rules[i].prefix.bits > rules[j].prefix.bits
    || (rules[i].prefix.bits == rules[j].prefix.bits &&
         (|| (rules[i].protocol != ALL && rules[j].protocol == ALL)
          || (rules[i].protocol == rules[j].protocol && i < j)))
  }

  lemma ChosenUnique(rules: seq<Rule>, dst: nat, proto: Byte, port: Word, i: nat, j: nat)
    requires Chosen(rules, dst, proto, port, i) && Chosen(rules, dst, proto, port, j)
    ensures i == j
  {
  }

  /** Two masked prefixes of one length that share an address are the same prefix. */
  lemma SamePrefix(a: Prefix, b: Prefix, dst: nat)
    requires a.Masked() && b.Masked() && a.bits == b.bits && a.Contains(dst) && b.Contains(dst)
    ensures a == b
  {
    var n := Pow2(32 - a.bits);
    QuotientDetermines(a.addr, b.addr, n);
  }

  lemma QuotientDetermines(x: nat, y: nat, n: nat)
    requires n > 0 && x % n == 0 && y % n == 0 && x / n == y / n
    ensures x == y
  {
    assert x == n * (x / n) && y == n * (y / n);
  }

  /** Between rules that cover one packet, the sort order is the order of preference. */
  lemma BeforeIsBetter(rules: seq<Rule>, i: nat, j: nat)
    requires i < |rules| && j < |rules| && Before(rules, CompareRules, i, j)
    requires rules[i].prefix.bits == rules[j].prefix.bits ==> rules[i].prefix == rules[j].prefix
    requires rules[i].protocol == ALL || rules[j].protocol == ALL || rules[i].protocol == rules[j].protocol
    ensures Better(rules, i, j)
  {
  }

  /** The scan of the sorted rules, whatever list they were sorted from. */
  method MatchIP(sorted: seq<Rule>, dst: nat, proto: Byte, port: Word) returns (r: Option<nat>)
    ensures r.None? ==> forall x | 0 <= x < |sorted| :: !Covers(sorted[x], dst, proto, port)
    ensures r.Some? ==> r.value < |sorted| && Covers(sorted[r.value], dst, proto, port)
    ensures r.Some? ==> forall x | 0 <= x < r.value :: !Covers(sorted[x], dst, proto, port)
  {
    for x := 0 to |sorted|
      invariant forall y | 0 <= y < x :: !Covers(sorted[y], dst, proto, port)
    {
      var rule := sorted[x];
      if !rule.prefix.Contains(dst) || (rule.protocol != ALL && rule.protocol != proto as int) { continue; }
      if proto != ICMP && (port < rule.first || port > rule.last) { continue; }
      return Some(x);
    }
    return None;
  }

  /** The first match of the sorted rules is the declarative choice over the unsorted ones. */
  lemma ScanIsChoice(rules: seq<Rule>, order: seq<nat>, sorted: seq<Rule>, dst: nat, proto: Byte, port: Word, x: nat)
    requires forall i | 0 <= i < |rules| :: rules[i].prefix.Masked()
    requires SortedInto(rules, CompareRules, order, sorted) && x <= |sorted|
    requires forall y | 0 <= y < x :: !Covers(sorted[y], dst, proto, port)
    ensures x == |sorted| ==> forall i | 0 <= i < |rules| :: !Covers(rules[i], dst, proto, port)
    ensures x < |sorted| && Covers(sorted[x], dst, proto, port) ==> Chosen(rules, dst, proto, port, order[x])
  {
    var hit := (rule: Rule) => Covers(rule, dst, proto, port);
    forall j | 0 <= j < |rules| && Covers(rules[j], dst, proto, port)
      ensures x < |sorted| && (j != order[x] ==> Before(rules, CompareRules, order[x], j))
    {
      FirstHitIsLeast(rules, CompareRules, order, sorted, hit, x, j);
    }
    if x < |sorted| && Covers(sorted[x], dst, proto, port) {
      forall j | 0 <= j < |rules| && Covers(rules[j], dst, proto, port) && j != order[x]
        ensures Better(rules, order[x], j)
      {
        if rules[order[x]].prefix.bits == rules[j].prefix.bits {
          SamePrefix(rules[order[x]].prefix, rules[j].prefix, dst);
        }
        BeforeIsBetter(rules, order[x], j);
      }
    }
  }

  // ---- Domain rules

  datatype DomainRule = DomainRule(pattern: string, grant: Grant, first: Word, last: Word)

  function Literal(rule: DomainRule): int {
    |rule.pattern| - Wildcard.Stars(rule.pattern)
  }

  predicate Exact(rule: DomainRule) {
    Wildcard.Stars(rule.pattern) == 0
  }

  /** Exact names first, then the wildcard with the longest literal text. */
  function CompareDomains(a: DomainRule, b: DomainRule): int {
    if Exact(a) && !Exact(b) then -1
    else if Exact(b) && !Exact(a) then 1
    else if Exact(a) then 0
    else Sign(Literal(b), Literal(a))
  }

  lemma CompareDomainsOrders()
    ensures Ordering(CompareDomains)
  {
  }

  ghost predicate Admits(rule: DomainRule, host: string, port: Word) {
    rule.first <= port <= rule.last && Wildcard.Means(rule.pattern, host)
  }

  /** An exact name over any wildcard, then the longest literal text, then the earliest. */
  ghost predicate ChosenDomain(rules: seq<DomainRule>, host: string, port: Word, i: nat) {
    && i < |rules| && Admits(rules[i], host, port)
    && forall j | 0 <= j < |rules| && Admits(rules[j], host, port) && j != i ::
         || (Exact(rules[i]) && !Exact(rules[j]))
         || (Exact(rules[i]) && Exact(rules[j]) && i < j)
         || (!Exact(rules[i]) && !Exact(rules[j]) &&
              (Literal(rules[i]) > Literal(rules[j]) || (Literal(rules[i]) == Literal(rules[j]) && i < j)))
  }

  lemma ChosenDomainUnique(rules: seq<DomainRule>, host: string, port: Word, i: nat, j: nat)
    requires ChosenDomain(rules, host, port, i) && ChosenDomain(rules, host, port, j)
    ensures i == j
  {
    hide Admits;
  }

  method MatchDomain(sorted: seq<DomainRule>, host: string, port: Word) returns (r: Option<nat>)
    ensures r.None? ==> forall x | 0 <= x < |sorted| :: !Admits(sorted[x], host, port)
    ensures r.Some? ==> r.value < |sorted| && Admits(sorted[r.value], host, port)
    ensures r.Some? ==> forall x | 0 <= x < r.value :: !Admits(sorted[x], host, port)
  {
    for x := 0 to |sorted|
      invariant forall y | 0 <= y < x :: !Admits(sorted[y], host, port)
    {
      var rule := sorted[x];
      if port < rule.first || port > rule.last { continue; }
      var matched := Wildcard.Matches(rule.pattern, host);
      if matched { return Some(x); }
    }
    return None;
  }

  lemma DomainScanIsChoice(rules: seq<DomainRule>, order: seq<nat>, sorted: seq<DomainRule>,
                           host: string, port: Word, x: nat)
    requires SortedInto(rules, CompareDomains, order, sorted) && x <= |sorted|
    requires forall y | 0 <= y < x :: !Admits(sorted[y], host, port)
    ensures x == |sorted| ==> forall i | 0 <= i < |rules| :: !Admits(rules[i], host, port)
    ensures x < |sorted| && Admits(sorted[x], host, port) ==> ChosenDomain(rules, host, port, order[x])
  {
    forall j | 0 <= j < |rules| && Admits(rules[j], host, port)
      ensures x < |sorted| && (j != order[x] ==> Before(rules, CompareDomains, order[x], j))
    {
      assert j in order;
      var y :| 0 <= y < |order| && order[y] == j;
      assert Admits(sorted[y], host, port) && x <= y;
    }
  }

  /** Parsing sorts once; the sorted list is stable and complete. */
  method SortRules(rules: seq<Rule>) returns (sorted: seq<Rule>, order: seq<nat>)
    ensures SortedInto(rules, CompareRules, order, sorted)
  {
    CompareRulesOrders();
    order := StableSort(rules, CompareRules);
    sorted := seq(|order|, x requires 0 <= x < |order| => rules[order[x]]);
  }

  method SortDomains(rules: seq<DomainRule>) returns (sorted: seq<DomainRule>, order: seq<nat>)
    ensures SortedInto(rules, CompareDomains, order, sorted)
  {
    CompareDomainsOrders();
    order := StableSort(rules, CompareDomains);
    sorted := seq(|order|, x requires 0 <= x < |order| => rules[order[x]]);
  }

  /** The rule of the server's list that a host and port are granted by: sorted once by the
      parser, then found by the scan. */
  method ChooseDomain(rules: seq<DomainRule>, host: string, port: Word) returns (r: Option<nat>)
    ensures r.Some? ==> ChosenDomain(rules, host, port, r.value)
    ensures r.None? ==> forall i | 0 <= i < |rules| :: !Admits(rules[i], host, port)
  {
    hide Admits, SortedInto, CompareDomains;
    var sorted, order := SortDomains(rules);
    var x := MatchDomain(sorted, host, port);
    DomainScanIsChoice(rules, order, sorted, host, port, if x.Some? then x.value else |sorted|);
    if x.None? { return None; }
    SortedCovers(rules, order, sorted);
    return Some(order[x.value]);
  }

  lemma SortedCovers(rules: seq<DomainRule>, order: seq<nat>, sorted: seq<DomainRule>)
    ensures SortedInto(rules, CompareDomains, order, sorted) ==> |order| == |sorted|
  {
  }
}
