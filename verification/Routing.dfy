/** How a request's path becomes a service name on the server, and how the client takes
    the name off the path again. */
module Routing {
  import opened Basics

  // ------------------------------------------------ the server

  /** The parts of a string between its slashes. */
  function Parts(s: string): (r: seq<string>)
    ensures r != []
  {
    if s == "" then [""]
    else if s[0] == '/' then [""] + Parts(s[1..])
    else
      var later := Parts(s[1..]);
      [[s[0]] + later[0]] + later[1..]
  }

  function DropEmptyEnd(parts: seq<string>): seq<string> {
    if parts == [] || parts[|parts| - 1] != "" then parts else DropEmptyEnd(parts[..|parts| - 1])
  }

  /** `split` with trailing empty parts dropped, unless there was nothing to split. */
  function Split(s: string): seq<string> {
    if '/' in s then DropEmptyEnd(Parts(s)) else [s]
  }

  datatype Route = BadRequest | Throws | To(name: string)

  /** The service a request goes to: the one its header names, or the second part of its
      path. */
  function RouteOf(blank: char -> bool, uri: string, header: Option<string>): Route {
    if IsBlank(blank, uri) || uri == "/" then BadRequest
    else if header.Some? && !IsBlank(blank, header.value) then To(header.value)
    else if |Split(uri)| >= 2 then To(Split(uri)[1])
    else Throws
  }

  lemma {:induction false} PartsOfSegment(a: string, rest: string)
    requires '/' !in a && (rest == "" || rest[0] == '/')
    ensures Parts(a + rest) == [a] + (if rest == "" then [] else Parts(rest[1..]))
  {
    if a == "" {
      assert a + rest == rest;
    } else {
      assert (a + rest)[1..] == a[1..] + rest;
      PartsOfSegment(a[1..], rest);
      var later, after := Parts(a[1..] + rest), if rest == "" then [] else Parts(rest[1..]);
      assert later == [a[1..]] + after && later[1..] == after;
      assert (a + rest)[0] == a[0] && a[0] in a;
      assert [a[0]] + later[0] == a;
      assert Parts(a + rest) == [[a[0]] + later[0]] + later[1..];
    }
  }

  lemma {:induction false} KeepsFirst(parts: seq<string>, k: nat)
    requires k < |parts| && parts[k] != ""
    ensures var r := DropEmptyEnd(parts); k < |r| <= |parts| && r == parts[..|r|]
  {
    if parts[|parts| - 1] == "" {
      KeepsFirst(parts[..|parts| - 1], k);
    }
  }

  /** The part of a string before its first slash. */
  function FirstSegment(s: string): (r: string)
    ensures '/' !in r && r <= s && (|r| == |s| || s[|r|] == '/')
  {
    if s == "" || s[0] == '/' then "" else [s[0]] + FirstSegment(s[1..])
  }

  /** A path that starts with a slash is routed to the segment behind it. */
  lemma {:induction false} RoutesToSegment(blank: char -> bool, tail: string)
    requires !blank('/') && FirstSegment(tail) != ""
    ensures RouteOf(blank, "/" + tail, None) == To(FirstSegment(tail))
  {
    var uri, a := "/" + tail, FirstSegment(tail);
    var rest := tail[|a|..];
    assert uri[0] == '/' && uri[1..] == tail && tail == a + rest;
    PartsOfSegment(a, rest);
    assert Parts(uri)[1] == a;
    KeepsFirst(Parts(uri), 1);
  }

  lemma {:induction false} PartsJoin(a: string, b: string)
    requires '/' !in a
    ensures Parts(a + "/" + b) == [a] + Parts(b)
  {
    assert a + "/" + b == a + ("/" + b) && ("/" + b)[1..] == b;
    PartsOfSegment(a, "/" + b);
  }

  lemma {:induction false} FirstPart(s: string)
    ensures Parts(s)[0] == FirstSegment(s)
  {
    if s != "" && s[0] != '/' {
      FirstPart(s[1..]);
    }
  }

  /** The second part of a path is what stands between its first two slashes, and there is
      none if only slashes follow the first. */
  lemma {:induction false} SecondPart(a: string, b: string)
    requires '/' !in a
    ensures var parts := Split(a + "/" + b);
      if forall k :: 0 <= k < |b| ==> b[k] == '/' then |parts| < 2
      else |parts| >= 2 && parts[1] == FirstSegment(b)
  {
    var uri, parts := a + "/" + b, Parts(b);
    assert uri[|a|] == '/';
    PartsJoin(a, b);
    FirstPart(b);
    PartsEmpty(b);
    if k :| 0 <= k < |parts| && parts[k] != "" {
      assert ([a] + parts)[k + 1] == parts[k];
      KeepsFirst([a] + parts, k + 1);
    } else {
      EmptyEnd([a] + parts);
    }
  }

  /** Where a request goes, for every path with a slash and every header: a path that is
      blank or a slash is refused; otherwise the header wins if it is not blank; otherwise
      what stands between the first slash and the next names the service, if anything but
      slashes follows the first one, and nothing but slashes ends in an exception. */
  lemma {:induction false} RouteMeans(blank: char -> bool, a: string, b: string, header: Option<string>)
    requires '/' !in a
    ensures var uri, r := a + "/" + b, RouteOf(blank, a + "/" + b, header);
      if (forall k :: 0 <= k < |uri| ==> blank(uri[k])) || (a == "" && b == "") then r == BadRequest
      else if header.Some? && exists k :: 0 <= k < |header.value| && !blank(header.value[k]) then r == To(header.value)
      else if forall k :: 0 <= k < |b| ==> b[k] == '/' then r == Throws
      else r == To(FirstSegment(b))
  {
    var uri := a + "/" + b;
    assert uri[|a|] == '/' && (uri == "/" <==> a == "" && b == "");
    SecondPart(a, b);
  }

  /** A path without a slash names no service: it needs the header. */
  lemma {:induction false} RouteWithoutSlash(blank: char -> bool, uri: string, header: Option<string>)
    requires '/' !in uri
    ensures var r := RouteOf(blank, uri, header);
      if forall k :: 0 <= k < |uri| ==> blank(uri[k]) then r == BadRequest
      else if header.Some? && exists k :: 0 <= k < |header.value| && !blank(header.value[k]) then r == To(header.value)
      else r == Throws
  {
  }

  predicate Alphanumeric(s: string) {
    s != "" && forall k :: 0 <= k < |s| ==> '0' <= s[k] <= '9' || 'a' <= s[k] <= 'z' || 'A' <= s[k] <= 'Z'
  }

  lemma {:induction false} SegmentOf(a: string, rest: string)
    requires '/' !in a
    ensures FirstSegment(a + rest) == a + FirstSegment(rest)
  {
    if a == "" {
      assert a + rest == rest;
    } else {
      assert (a + rest)[1..] == a[1..] + rest;
      SegmentOf(a[1..], rest);
    }
  }

  /** A path that starts with a service name goes to that service exactly if the name ends
      there or a slash follows. */
  lemma {:induction false} RoutesToName(blank: char -> bool, name: string, rest: string)
    requires !blank('/') && Alphanumeric(name)
    ensures RouteOf(blank, "/" + name + rest, None) == To(name) <==> rest == "" || rest[0] == '/'
  {
    assert "/" + name + rest == "/" + (name + rest);
    SegmentOf(name, rest);
    RoutesToSegment(blank, name + rest);
    assert |FirstSegment(rest)| == 0 <==> rest == "" || rest[0] == '/';
  }

  /** When the server's handler ends in an exception: a path that is neither blank nor a
      single slash, without a header that names the service, in which nothing but slashes
      follows the first slash. */
  lemma {:induction false} ThrowsWhen(blank: char -> bool, uri: string, header: Option<string>)
    ensures RouteOf(blank, uri, header).Throws? <==>
      && !IsBlank(blank, uri) && uri != "/" && (header.None? || IsBlank(blank, header.value))
      && OnlySlashesAfterSlash(uri)
  {
    if '/' in uri {
      EmptyEnd(Parts(uri));
      PartsAfterFirst(uri);
      assert |Split(uri)| < 2 <==> OnlySlashesAfterSlash(uri);
    } else {
      assert forall i :: 0 <= i < |uri| ==> uri[i] in uri;
      assert OnlySlashesAfterSlash(uri);
    }
    assert |Split(uri)| < 2 <==> OnlySlashesAfterSlash(uri);
  }

  lemma {:induction false} EmptyEnd(parts: seq<string>)
    ensures |DropEmptyEnd(parts)| < 2 <==> forall k :: 1 <= k < |parts| ==> parts[k] == ""
  {
    if parts != [] && parts[|parts| - 1] == "" {
      EmptyEnd(parts[..|parts| - 1]);
    }
  }

  lemma {:induction false} PartsEmpty(s: string)
    ensures (forall k :: 0 <= k < |Parts(s)| ==> Parts(s)[k] == "") <==> forall j :: 0 <= j < |s| ==> s[j] == '/'
  {
    if s != "" {
      PartsEmpty(s[1..]);
      assert s == [s[0]] + s[1..];
      if s[0] == '/' {
        assert forall k :: 0 < k < |Parts(s)| ==> Parts(s)[k] == Parts(s[1..])[k - 1];
        assert forall k :: 0 <= k < |Parts(s[1..])| ==> Parts(s[1..])[k] == Parts(s)[k + 1];
      } else {
        assert Parts(s)[0] != "";
      }
    }
  }

  ghost predicate OnlySlashesAfterSlash(s: string) {
    forall i, j :: 0 <= i < j < |s| && s[i] == '/' ==> s[j] == '/'
  }

  lemma {:induction false} PartsAfterFirst(s: string)
    ensures (forall k :: 1 <= k < |Parts(s)| ==> Parts(s)[k] == "") <==> OnlySlashesAfterSlash(s)
  {
    if s != "" {
      var tail := s[1..];
      assert s == [s[0]] + tail;
      if s[0] == '/' {
        PartsEmpty(tail);
        assert forall k :: 0 <= k < |Parts(tail)| ==> Parts(s)[k + 1] == Parts(tail)[k];
      } else {
        PartsAfterFirst(tail);
        assert forall k :: 1 <= k < |Parts(tail)| ==> Parts(s)[k] == Parts(tail)[k];
        SlashLater(s);
      }
    }
  }

  lemma {:induction false} SlashLater(s: string)
    requires s != "" && s[0] != '/'
    ensures OnlySlashesAfterSlash(s) <==> OnlySlashesAfterSlash(s[1..])
  {
    if OnlySlashesAfterSlash(s[1..]) {
      forall i, j | 0 <= i < j < |s| && s[i] == '/' ensures s[j] == '/' {
        assert s[1..][i - 1] == '/' && s[1..][j - 1] == s[j];
      }
    }
  }

  // ------------------------------------------------ the client

  predicate Occurs(s: string, pattern: string, i: int) {
    0 <= i && i + |pattern| <= |s| && s[i..i + |pattern|] == pattern
  }

  /** `replaceAll` with a literal pattern and an empty replacement: a scan from the left
      that steps over what it has matched. */
  function RemoveAll(s: string, pattern: string): (r: string)
    requires pattern != ""
    decreases |s|
  {
    if s == "" then ""
    else if Occurs(s, pattern, 0) then RemoveAll(s[|pattern|..], pattern)
    else [s[0]] + RemoveAll(s[1..], pattern)
  }

  /** The path the client asks the backend for. */
  function BackendUrl(url: string, name: string, delete: bool): string {
    if delete then RemoveAll(url, "/" + name) else url
  }

  /** Position `k` belongs to an occurrence. */
  ghost predicate Covered(s: string, pattern: string, k: int) {
    exists i :: k - |pattern| < i <= k && Occurs(s, pattern, i)
  }

  /** What is left from position `k` on when every covered character is dropped. */
  ghost function Uncovered(s: string, pattern: string, k: nat): string
    requires k <= |s|
    decreases |s| - k
  {
    if k == |s| then ""
    else (if Covered(s, pattern, k) then "" else [s[k]]) + Uncovered(s, pattern, k + 1)
  }

  function Count(s: string, pattern: string): (n: nat) {
    if s == "" then 0 else (if Occurs(s, pattern, 0) then 1 else 0) + Count(s[1..], pattern)
  }

  /** A slash and a name without one never overlap themselves. */
  lemma {:induction false} NoOverlap(s: string, name: string, i: nat, j: nat)
    requires '/' !in name && i < j && Occurs(s, "/" + name, i) && Occurs(s, "/" + name, j)
    ensures j >= i + |name| + 1
  {
    var pattern := "/" + name;
    assert s[j..j + |pattern|][0] == '/';
    forall k | i < k < i + |pattern| ensures s[k] != '/' {
      assert s[k] == s[i..i + |pattern|][k - i] == name[k - i - 1];
    }
  }

  lemma {:induction false} OccursLater(s: string, pattern: string, k: nat, i: nat)
    requires k <= |s|
    ensures Occurs(s[k..], pattern, i) <==> Occurs(s, pattern, k + i)
  {
    if i + |pattern| <= |s[k..]| {
      assert s[k..][i..i + |pattern|] == s[k + i..k + i + |pattern|];
    }
  }

  /** Nothing that starts before `k` reaches beyond it. */
  ghost predicate Clean(s: string, pattern: string, k: nat) {
    forall i :: 0 <= i < k && Occurs(s, pattern, i) ==> i + |pattern| <= k
  }

  lemma {:induction false} UncoveredSkips(s: string, pattern: string, i: nat, k: nat)
    requires Occurs(s, pattern, i) && i <= k <= i + |pattern|
    ensures Uncovered(s, pattern, k) == Uncovered(s, pattern, i + |pattern|)
    decreases i + |pattern| - k
  {
    if k < i + |pattern| {
      assert Covered(s, pattern, k);
      UncoveredSkips(s, pattern, i, k + 1);
    }
  }

  lemma {:induction false} RemovesFrom(s: string, name: string, k: nat)
    requires '/' !in name && k <= |s| && Clean(s, "/" + name, k)
    ensures RemoveAll(s[k..], "/" + name) == Uncovered(s, "/" + name, k)
    decreases |s| - k
  {
    var pattern := "/" + name;
    if k < |s| {
      OccursLater(s, pattern, k, 0);
      if Occurs(s, pattern, k) {
        forall i | 0 <= i < k + |pattern| && Occurs(s, pattern, i) ensures i + |pattern| <= k + |pattern| {
          if i > k {
            NoOverlap(s, name, k, i);
          }
        }
        RemovesFrom(s, name, k + |pattern|);
        assert s[k..][|pattern|..] == s[k + |pattern|..];
        UncoveredSkips(s, pattern, k, k);
      } else {
        assert !Covered(s, pattern, k);
        RemovesFrom(s, name, k + 1);
        assert s[k..][1..] == s[k + 1..];
      }
    }
  }

  /** The scan drops exactly the characters that belong to some occurrence. */
  lemma {:induction false} RemovesCovered(s: string, name: string)
    requires '/' !in name
    ensures RemoveAll(s, "/" + name) == Uncovered(s, "/" + name, 0)
  {
    assert s[0..] == s;
    RemovesFrom(s, name, 0);
  }

  lemma {:induction false} CountAt(s: string, pattern: string, k: nat)
    requires k <= |s|
    ensures k == |s| || Count(s[k..], pattern) == (if Occurs(s, pattern, k) then 1 else 0) + Count(s[k + 1..], pattern)
  {
    if k < |s| {
      assert s[k..][1..] == s[k + 1..];
      OccursLater(s, pattern, k, 0);
    }
  }

  lemma {:induction false} CountSkips(s: string, name: string, i: nat, k: nat)
    requires '/' !in name && Occurs(s, "/" + name, i) && i < k <= i + |name| + 1
    ensures Count(s[k..], "/" + name) == Count(s[i + |name| + 1..], "/" + name)
    decreases i + |name| + 1 - k
  {
    if k < i + |name| + 1 {
      if Occurs(s, "/" + name, k) {
        NoOverlap(s, name, i, k);
      }
      CountAt(s, "/" + name, k);
      CountSkips(s, name, i, k + 1);
    }
  }

  lemma OneMore(n: nat, c: nat)
    ensures n * (1 + c) == n + n * c
  {
  }

  /** Every occurrence costs its length, and nothing else is lost. */
  lemma {:induction false} RemovesLength(s: string, name: string)
    requires '/' !in name
    ensures |RemoveAll(s, "/" + name)| + (|name| + 1) * Count(s, "/" + name) == |s|
    decreases |s|
  {
    var pattern := "/" + name;
    if s != "" {
      if Occurs(s, pattern, 0) {
        CountSkips(s, name, 0, 1);
        RemovesLength(s[|pattern|..], name);
        assert Count(s, pattern) == 1 + Count(s[|pattern|..], pattern);
        OneMore(|name| + 1, Count(s[|pattern|..], pattern));
      } else {
        RemovesLength(s[1..], name);
      }
    }
  }

  lemma {:induction false} NothingToRemove(s: string, pattern: string)
    requires pattern != "" && Count(s, pattern) == 0
    ensures RemoveAll(s, pattern) == s
  {
    if s != "" {
      NothingToRemove(s[1..], pattern);
    }
  }

  lemma {:induction false} RemovesPrefix(name: string, rest: string)
    ensures RemoveAll("/" + name + rest, "/" + name) == RemoveAll(rest, "/" + name)
  {
    var s, pattern := "/" + name + rest, "/" + name;
    assert s[..|pattern|] == pattern && s[|pattern|..] == rest && s[0..0 + |pattern|] == pattern;
  }

  lemma {:induction false} RemovesRest(name: string, rest: string)
    requires '/' !in name
    ensures var r, n := RemoveAll("/" + name + rest, "/" + name), Count(rest, "/" + name);
      r == Uncovered(rest, "/" + name, 0) && |r| == |rest| - (|name| + 1) * n && (r == rest <==> n == 0)
  {
    RemovesPrefix(name, rest);
    RemovesCovered(rest, name);
    RemovesLength(rest, name);
    if Count(rest, "/" + name) == 0 {
      NothingToRemove(rest, "/" + name);
    }
  }

  /** The two ends fit together: a path routed to a service by its name reaches the
      backend without the name, and otherwise as it was exactly if the name does not occur
      again as the beginning of a later segment. */
  lemma {:induction false} RouteAndRemove(blank: char -> bool, name: string, rest: string)
    requires !blank('/') && Alphanumeric(name)
    requires RouteOf(blank, "/" + name + rest, None) == To(name)
    ensures BackendUrl("/" + name + rest, name, true) == Uncovered(rest, "/" + name, 0)
    ensures |BackendUrl("/" + name + rest, name, true)| == |rest| - (|name| + 1) * Count(rest, "/" + name)
    ensures BackendUrl("/" + name + rest, name, true) == rest <==> Count(rest, "/" + name) == 0
    ensures BackendUrl("/" + name + rest, name, false) == "/" + name + rest
  {
    RemovesRest(name, rest);
  }

  /** An occurrence in the middle of a string reaches into neither side. */
  lemma {:induction false} OccursBefore(a: string, name: string, b: string)
    requires '/' !in name && a != ""
    ensures Occurs(a + ("/" + name) + b, "/" + name, 0) <==> Occurs(a, "/" + name, 0)
  {
    var p := "/" + name;
    var s := a + p + b;
    assert s[|a|] == '/';
    if |a| < |p| <= |s| {
      assert p[|a|] == name[|a| - 1] && s[0..0 + |p|][|a|] == '/';
    } else if |p| <= |a| {
      assert s[0..0 + |p|] == a[0..0 + |p|];
    }
  }

  lemma {:induction false} RemovesInside(a: string, name: string, b: string)
    requires '/' !in name
    ensures RemoveAll(a + ("/" + name) + b, "/" + name) == RemoveAll(a, "/" + name) + RemoveAll(b, "/" + name)
    decreases |a|
  {
    var p := "/" + name;
    var s := a + p + b;
    if a == "" {
      assert s == "/" + name + b;
      RemovesPrefix(name, b);
    } else {
      OccursBefore(a, name, b);
      if Occurs(a, p, 0) {
        assert s[|p|..] == a[|p|..] + p + b;
        RemovesInside(a[|p|..], name, b);
      } else {
        assert s[1..] == a[1..] + p + b;
        RemovesInside(a[1..], name, b);
        assert [a[0]] + (RemoveAll(a[1..], p) + RemoveAll(b, p)) == ([a[0]] + RemoveAll(a[1..], p)) + RemoveAll(b, p);
      }
    }
  }

  /** It does go wrong: wherever in the backend's own path a later segment begins with the
      name of the service, the slash and the name are gone. */
  lemma {:induction false} RemovesTooMuch(blank: char -> bool, name: string, a: string, b: string)
    requires !blank('/') && Alphanumeric(name) && (a == "" || a[0] == '/')
    ensures var uri := "/" + name + (a + ("/" + name) + b);
      && RouteOf(blank, uri, None) == To(name)
      && BackendUrl(uri, name, true) == RemoveAll(a, "/" + name) + RemoveAll(b, "/" + name)
  {
    RoutesToName(blank, name, a + ("/" + name) + b);
    RemovesPrefix(name, a + ("/" + name) + b);
    RemovesInside(a, name, b);
  }
}
