/** Taking path names apart: skipelem, and what the sequence of its results means. */
module PathNames {
  const NAME_MAX: nat := 60

  /** Leading slashes and "./" are skipped, in any order. */
  function SkipLead(p: string): (r: string)
    ensures |r| <= |p|
    ensures r != "" ==> r[0] != '/' && !(|r| >= 2 && r[0] == '.' && r[1] == '/')
  {
    if |p| >= 2 && p[0] == '.' && p[1] == '/' then SkipLead(p[2..])
    else if |p| >= 1 && p[0] == '/' then SkipLead(p[1..])
    else p
  }

  function SkipSlashes(p: string): (r: string)
    ensures |r| <= |p|
  {
    if p != "" && p[0] == '/' then SkipSlashes(p[1..]) else p
  }

  /** Length of the first element: up to a slash or the end. */
  function ElemLen(p: string): (n: nat)
    ensures n <= |p| && (n < |p| ==> p[n] == '/') && (forall i :: 0 <= i < n ==> p[i] != '/')
  {
    if p == "" || p[0] == '/' then 0 else 1 + ElemLen(p[1..])
  }

  datatype Skipped = End | Elem(name: string, rest: string) | TooLong(rest: string)

  /** skipelem as a function of what is left of the path; an element always consumes some of it. */
  function Skip(p: string): (r: Skipped)
    ensures !r.End? ==> |r.rest| < |p|
  {
    var q := SkipLead(p);
    if q == "" then End else
    var n := ElemLen(q);
    assert n > 0;
    if n > NAME_MAX then TooLong(q[n..]) else Elem(q[..n], SkipSlashes(q[n..]))
  }

  datatype Component = Name(name: string) | LongName

  /** What a walk sees: the names in order, stopping at one that is too long. */
  function Components(p: string): seq<Component>
    decreases |p|
  {
    match Skip(p)
    case End => []
    case Elem(name, rest) => [Name(name)] + Components(rest)
    case TooLong(_) => [LongName]
  }

  /** The first loop of skipelem, over an index into the path. */
  method SkipLeading(path: string, start: nat) returns (at: nat)
    requires start <= |path|
    ensures start <= at <= |path| && path[at..] == SkipLead(path[start..])
  {
    at := start;
    var skipped := true;
    while skipped
      invariant start <= at <= |path| && SkipLead(path[at..]) == SkipLead(path[start..])
      invariant !skipped ==> SkipLead(path[at..]) == path[at..]
      decreases |path| - at, skipped
    {
      skipped := false;
      if at + 1 < |path| && path[at] == '.' && path[at + 1] == '/' {
        skipped := true;
        assert path[at..][2..] == path[at + 2..];
        at := at + 2;
      } else if at < |path| && path[at] == '/' {
        skipped := true;
        assert path[at..][1..] == path[at + 1..];
        at := at + 1;
      }
    }
  }

  /** The second loop: to the end of the element. */
  method FindElemEnd(path: string, s: nat) returns (at: nat)
    requires s <= |path|
    ensures s <= at <= |path| && at == s + ElemLen(path[s..])
  {
    at := s;
    while at < |path| && path[at] != '/'
      invariant s <= at <= |path| && ElemLen(path[s..]) == (at - s) + ElemLen(path[at..])
    {
      assert path[at..][1..] == path[at + 1..];
      at := at + 1;
    }
  }

  /** The last loop: over the slashes behind the element. */
  method SkipTrailing(path: string, start: nat) returns (at: nat)
    requires start <= |path|
    ensures start <= at <= |path| && path[at..] == SkipSlashes(path[start..])
  {
    at := start;
    while at < |path| && path[at] == '/'
      invariant start <= at <= |path| && SkipSlashes(path[at..]) == SkipSlashes(path[start..])
    {
      assert path[at..][1..] == path[at + 1..];
      at := at + 1;
    }
  }

  method SkipElem(path: string, start: nat) returns (r: Skipped, at: nat)
    requires start <= |path|
    ensures at <= |path| && r == Skip(path[start..])
    ensures !r.End? ==> start < at && path[at..] == r.rest
  {
    hide SkipLead, SkipSlashes, ElemLen;
    var s := SkipLeading(path, start);
    if s == |path| {
      return End, s;
    }
    at := FindElemEnd(path, s);
    assert path[s..][at - s..] == path[at..] && path[s..][..at - s] == path[s..at];
    if at - s > NAME_MAX {
      return TooLong(path[at..]), at;
    }
    var name := path[s..at];
    at := SkipTrailing(path, at);
    r := Elem(name, path[at..]);
  }

  // ----- reference: split at slashes, then drop what means nothing -----

  function Split(p: string): (r: seq<string>)
    ensures r != []
  {
    var n := ElemLen(p);
    if n == |p| then [p] else [p[..n]] + Split(p[n + 1..])
  }

  /** Empty segments go; so does ".", except as the last segment. */
  function Clean(segments: seq<string>): seq<string> {
    if segments == [] then []
    else if segments[0] == "" || (segments[0] == "." && |segments| > 1) then Clean(segments[1..])
    else [segments[0]] + Clean(segments[1..])
  }

  function UpToLong(names: seq<string>): seq<Component> {
    if names == [] then []
    else if |names[0]| > NAME_MAX then [LongName]
    else [Name(names[0])] + UpToLong(names[1..])
  }

  lemma SplitHead(p: string)
    ensures ElemLen(p) < |p| ==>
      && Split(p) == [p[..ElemLen(p)]] + Split(p[ElemLen(p) + 1..])
      && |Split(p)| > 1 && Split(p)[1..] == Split(p[ElemLen(p) + 1..])
  {
  }

  lemma {:induction false} CleanSkipLead(p: string)
    ensures Clean(Split(SkipLead(p))) == Clean(Split(p))
    decreases |p|
  {
    SplitHead(p);
    if |p| >= 2 && p[0] == '.' && p[1] == '/' {
      assert ElemLen(p) == 1 by { assert ElemLen(p[1..]) == 0; }
      assert p[..1] == "." && p[1 + 1..] == p[2..];
      CleanSkipLead(p[2..]);
    } else if |p| >= 1 && p[0] == '/' {
      CleanSkipLead(p[1..]);
    }
  }

  lemma {:induction false} CleanSkipSlashes(p: string)
    ensures Clean(Split(SkipSlashes(p))) == Clean(Split(p))
    decreases |p|
  {
    SplitHead(p);
    if p != "" && p[0] == '/' {
      CleanSkipSlashes(p[1..]);
    }
  }

  /** The first element and what is behind it, for a path without anything to skip in front. */
  lemma CleanElem(q: string)
    requires q != "" && q[0] != '/' && !(|q| >= 2 && q[0] == '.' && q[1] == '/')
    ensures var n := ElemLen(q); n > 0 && Clean(Split(q)) == [q[..n]] + Clean(Split(SkipSlashes(q[n..])))
  {
    var n := ElemLen(q);
    SplitHead(q);
    if n < |q| {
      NotDot(q);
      SlashBehind(q[n..], q[n + 1..]);
      hide Clean, Split, SkipSlashes;
      CleanCons(q[..n], Split(q[n + 1..]));
      CleanSkipSlashes(q[n + 1..]);
    } else {
      assert q[..n] == q && q[n..] == "";
      NothingLeft();
    }
  }

  lemma CleanCons(x: string, t: seq<string>)
    ensures Clean([x] + t) == if x == "" || (x == "." && t != []) then Clean(t) else [x] + Clean(t)
  {
    assert ([x] + t)[1..] == t;
  }

  lemma NotDot(q: string)
    requires q != "" && q[0] != '/' && !(|q| >= 2 && q[0] == '.' && q[1] == '/') && ElemLen(q) < |q|
    ensures q[..ElemLen(q)] != "." && q[..ElemLen(q)] != "" && ElemLen(q) > 0
  {
    var n := ElemLen(q);
    assert n == 1 ==> q[1] == '/';
    assert n == 1 ==> q[..1] == [q[0]];
  }

  lemma SlashBehind(p: string, q: string)
    requires p != "" && p[0] == '/' && q == p[1..]
    ensures SkipSlashes(p) == SkipSlashes(q)
  {
  }

  /** Calling skipelem until it stops yields the cleaned segments of the path, in order. */
  lemma {:induction false} ComponentsAreSegments(p: string)
    ensures Components(p) == UpToLong(Clean(Split(p)))
    decreases |p|
  {
    hide Split, SkipSlashes, ElemLen, SkipLead;
    CleanSkipLead(p);
    var q := SkipLead(p);
    if q == "" {
      NothingLeft();
    } else {
      hide Clean;
      CleanElem(q);
      var n := ElemLen(q);
      if n <= NAME_MAX {
        ComponentsAreSegments(SkipSlashes(q[n..]));
      }
    }
  }

  lemma NothingLeft()
    ensures Clean(Split("")) == []
  {
    assert Split("") == [""];
  }
}
