/** Domain patterns: the forward-only matcher against "some text for every star". */
module Wildcard {
  // ---- What a pattern means

  function Stars(p: string): nat {
    if p == "" then 0 else (if p[0] == '*' then 1 else 0) + Stars(p[1..])
  }

  /** The pattern with its stars replaced, left to right, by the given texts. */
  function Instantiate(p: string, fills: seq<string>): string
    requires |fills| == Stars(p)
  {
    if p == "" then ""
    else if p[0] == '*' then fills[0] + Instantiate(p[1..], fills[1..])
    else [p[0]] + Instantiate(p[1..], fills)
  }

  ghost predicate Means(p: string, host: string) {
    exists fills: seq<string> :: |fills| == Stars(p) && Instantiate(p, fills) == host
  }

  // ---- strings.Cut, HasPrefix, HasSuffix and Index

  predicate HasPrefix(s: string, prefix: string) {
    |prefix| <= |s| && s[..|prefix|] == prefix
  }

  predicate HasSuffix(s: string, suffix: string) {
    |suffix| <= |s| && s[|s| - |suffix|..] == suffix
  }

  /** The text before the first star, the text after it, and whether there is one. */
  method Cut(s: string) returns (before: string, after: string, found: bool)
    ensures Stars(before) == 0
    ensures found ==> s == before + "*" + after && |after| < |s|
    ensures !found ==> before == s && after == ""
  {
    var i := 0;
    while i < |s| && s[i] != '*'
      invariant 0 <= i <= |s| && forall k | 0 <= k < i :: s[k] != '*'
    {
      i := i + 1;
    }
    NoStars(s[..i]);
    if i == |s| {
      assert s[..i] == s;
      return s, "", false;
    }
    assert s == s[..i] + "*" + s[i + 1..];
    return s[..i], s[i + 1..], true;
  }

  lemma {:induction false} NoStars(s: string)
    requires forall k | 0 <= k < |s| :: s[k] != '*'
    ensures Stars(s) == 0
  {
    if s != "" {
      NoStars(s[1..]);
    }
  }

  predicate OccursAt(s: string, part: string, i: nat) {
    i + |part| <= |s| && s[i..i + |part|] == part
  }

  /** The leftmost position of a part, or -1. */
  method Index(s: string, part: string) returns (pos: int)
    ensures pos >= 0 ==> OccursAt(s, part, pos) && forall i: nat | i < pos :: !OccursAt(s, part, i)
    ensures pos < 0 ==> forall i: nat :: !OccursAt(s, part, i)
  {
    pos := 0;
    while pos + |part| <= |s|
      invariant pos >= 0 && forall i: nat | i < pos :: !OccursAt(s, part, i)
    {
      if s[pos..pos + |part|] == part { return; }
      pos := pos + 1;
    }
    pos := -1;
  }

  // ---- Laws of the meaning

  lemma {:induction false} LiteralMeans(p: string, host: string)
    requires Stars(p) == 0
    ensures Means(p, host) <==> p == host
  {
    LiteralIsItself(p);
    assert Instantiate(p, []) == p;
  }

  lemma {:induction false} LiteralIsItself(p: string)
    requires Stars(p) == 0
    ensures Instantiate(p, []) == p
  {
    if p != "" {
      LiteralIsItself(p[1..]);
    }
  }

  lemma {:induction false} StarsAdd(a: string, b: string)
    ensures Stars(a + b) == Stars(a) + Stars(b)
  {
    if a == "" {
      assert a + b == b;
    } else {
      assert (a + b)[1..] == a[1..] + b;
      StarsAdd(a[1..], b);
    }
  }

  lemma {:induction false} InstantiatePrefix(prefix: string, rest: string, fills: seq<string>)
    requires Stars(prefix) == 0 && |fills| == Stars(rest)
    ensures Stars(prefix + rest) == |fills| && Instantiate(prefix + rest, fills) == prefix + Instantiate(rest, fills)
  {
    StarsAdd(prefix, rest);
    if prefix == "" {
      assert prefix + rest == rest;
    } else {
      var p, tail := prefix + rest, Instantiate(rest, fills);
      InstantiatePrefix(prefix[1..], rest, fills);
      assert p[1..] == prefix[1..] + rest && p[0] == prefix[0] != '*';
      assert Instantiate(p, fills) == [prefix[0]] + Instantiate(p[1..], fills);
      assert [prefix[0]] + (prefix[1..] + tail) == prefix + tail;
    }
  }

  lemma {:induction false} PrefixMeans(prefix: string, rest: string, host: string)
    requires Stars(prefix) == 0
    ensures Means(prefix + rest, host) <==> HasPrefix(host, prefix) && Means(rest, host[|prefix|..])
  {
    StarsAdd(prefix, rest);
    if Means(prefix + rest, host) {
      var fills: seq<string> :| |fills| == Stars(prefix + rest) && Instantiate(prefix + rest, fills) == host;
      InstantiatePrefix(prefix, rest, fills);
      assert host[|prefix|..] == Instantiate(rest, fills);
    }
    if HasPrefix(host, prefix) && Means(rest, host[|prefix|..]) {
      var fills: seq<string> :| |fills| == Stars(rest) && Instantiate(rest, fills) == host[|prefix|..];
      InstantiatePrefix(prefix, rest, fills);
      assert Instantiate(prefix + rest, fills) == host;
    }
  }

  /** A star takes any beginning of the host. */
  lemma StarMeans(rest: string, host: string)
    ensures Means("*" + rest, host) <==> exists i: nat :: i <= |host| && Means(rest, host[i..])
  {
    var p := "*" + rest;
    assert p[1..] == rest;
    if Means(p, host) {
      var fills: seq<string> :| |fills| == Stars(p) && Instantiate(p, fills) == host;
      assert host[|fills[0]|..] == Instantiate(rest, fills[1..]);
      assert Means(rest, host[|fills[0]|..]);
    }
    if i: nat :| i <= |host| && Means(rest, host[i..]) {
      var fills: seq<string> :| |fills| == Stars(rest) && Instantiate(rest, fills) == host[i..];
      var all := [host[..i]] + fills;
      assert all[1..] == fills;
      assert Instantiate(p, all) == host;
    }
  }

  /** What a starred pattern matches, it matches behind more text. */
  lemma StarAbsorbs(rest: string, host: string, k: nat)
    requires k <= |host| && Means("*" + rest, host[k..])
    ensures Means("*" + rest, host)
  {
    StarMeans(rest, host[k..]);
    StarMeans(rest, host);
    var i: nat :| i <= |host[k..]| && Means(rest, host[k..][i..]);
    assert host[k..][i..] == host[k + i..];
  }

  lemma LastSegment(segment: string, host: string)
    requires Stars(segment) == 0
    ensures Means("*" + segment, host) <==> HasSuffix(host, segment)
  {
    StarMeans(segment, host);
    forall i: nat | i <= |host| ensures Means(segment, host[i..]) <==> segment == host[i..] {
      LiteralMeans(segment, host[i..]);
    }
    if HasSuffix(host, segment) {
      assert Means(segment, host[|host| - |segment|..]);
    }
  }

  /** A middle segment followed by a star matches somewhere exactly when it matches at its
      leftmost occurrence: the matcher never has to go back. */
  lemma MiddleSegment(segment: string, next: string, host: string, pos: int)
    requires Stars(segment) == 0
    requires pos >= 0 ==> OccursAt(host, segment, pos) && forall i: nat | i < pos :: !OccursAt(host, segment, i)
    requires pos < 0 ==> forall i: nat :: !OccursAt(host, segment, i)
    ensures Means("*" + segment + "*" + next, host) <==>
            pos >= 0 && Means("*" + next, host[pos + |segment|..])
  {
    hide Means;
    var rest := segment + ("*" + next);
    assert "*" + segment + "*" + next == "*" + rest;
    StarMeans(rest, host);
    if i: nat :| i <= |host| && Means(rest, host[i..]) {
      SegmentMeans(segment, next, host, i);
      assert pos <= i;
      var tail := host[pos + |segment|..];
      assert tail[i - pos..] == host[i + |segment|..];
      StarAbsorbs(next, tail, i - pos);
    }
    if pos >= 0 && Means("*" + next, host[pos + |segment|..]) {
      SegmentMeans(segment, next, host, pos);
    }
  }

  lemma SegmentMeans(segment: string, next: string, host: string, i: nat)
    requires Stars(segment) == 0 && i <= |host|
    ensures Means(segment + ("*" + next), host[i..]) <==>
            OccursAt(host, segment, i) && Means("*" + next, host[i + |segment|..])
  {
    hide Means, Stars;
    PrefixMeans(segment, "*" + next, host[i..]);
    if i + |segment| <= |host| {
      assert host[i..][..|segment|] == host[i..i + |segment|];
      assert host[i..][|segment|..] == host[i + |segment|..];
    }
  }

  // ---- The matcher

  method Matches(pattern: string, host: string) returns (r: bool)
    ensures r <==> Means(pattern, host)
  {
    var prefix, tail, wildcard := Cut(pattern);
    if !wildcard {
      LiteralMeans(pattern, host);
      return pattern == host;
    }
    assert pattern == prefix + ("*" + tail);
    PrefixMeans(prefix, "*" + tail, host);
    if !HasPrefix(host, prefix) { return false; }
    var h := host[|prefix|..];
    while true
      invariant Means(pattern, host) <==> Means("*" + tail, h)
      decreases |tail|
    {
      var segment, next, more := Cut(tail);
      if !more {
        LastSegment(segment, h);
        return HasSuffix(h, segment);
      }
      var pos := Index(h, segment);
      assert "*" + tail == "*" + segment + "*" + next;
      MiddleSegment(segment, next, h, pos);
      if pos < 0 { return false; }
      h := h[pos + |segment|..];
      tail := next;
    }
  }
}
