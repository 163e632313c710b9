/**
  RealPath (Misc.c:167-314) over its own buffers: the path text, the buffer the result grows in and the
  buffer links are spliced in are arrays of characters ended by NUL, and positions in them are offsets.
*/
module RealPathImplementation {
  import opened Wrappers
  import opened PathResolution
  import opened PathLaws

  /** The text `s`, ended by NUL, lies at offset `i`. */
  predicate StoredAt(a: seq<char>, i: nat, s: string) {
    i + |s| < |a| && a[i..i + |s|] == s && a[i + |s|] == NUL && NUL !in s
  }

  /** The result up to `dest`: the text of the stack, perhaps with a separator after it. */
  predicate AtDest(x: string, stack: seq<Component>) {
    x == Render(stack) || (stack != [] && x == Render(stack) + "/")
  }

  /** CopyMem, whose areas may overlap. */
  method CopyMem(to: array<char>, i: nat, from: array<char>, j: nat, n: nat)
    requires i + n <= to.Length && j + n <= from.Length
    modifies to
    ensures to[..] == old(to[..i]) + old(from[j..j + n]) + old(to[i + n..])
  {
    forall k | 0 <= k < n { to[i + k] := from[j + k]; }
    assert to[..] == old(to[..i]) + old(from[j..j + n]) + old(to[i + n..]);
  }

  /** AsciiStrLen */
  method AsciiStrLen(a: array<char>, i: nat, ghost s: string) returns (n: nat)
    requires StoredAt(a[..], i, s)
    ensures n == |s|
  {
    NoNulInside(a[..], i, s);
    n := 0;
    while a[i + n] != NUL
      invariant n <= |s|
      decreases |s| - n
    {
      n := n + 1;
    }
  }

  lemma NoNulInside(a: seq<char>, i: nat, s: string)
    requires StoredAt(a, i, s)
    ensures forall k | i <= k < i + |s| :: a[k] != NUL
  {
    forall k | i <= k < i + |s| ensures a[k] != NUL { assert a[k] == s[k - i]; }
  }

  // ----- reading the path text -----

  /** Skip a sequence of separators. */
  method SkipSeparators(text: array<char>, start: nat, ghost s: string) returns (i: nat)
    requires StoredAt(text[..], start, s)
    ensures i == start + Slashes(s)
  {
    i := start;
    while text[i] == '/'
      invariant start <= i <= start + |s|
      invariant Slashes(s) == i - start + Slashes(s[i - start..])
      decreases start + |s| - i
    {
      assert s[i - start..][1..] == s[i + 1 - start..];
      i := i + 1;
    }
  }

  /** Find the end of the component that starts at `start`. */
  method ComponentEnd(text: array<char>, start: nat, ghost s: string) returns (i: nat)
    requires StoredAt(text[..], start, s)
    ensures i == start + Span(s)
  {
    i := start;
    while text[i] != NUL && text[i] != '/'
      invariant start <= i <= start + |s|
      invariant Span(s) == i - start + Span(s[i - start..])
      decreases start + |s| - i
    {
      assert s[i - start..][1..] == s[i + 1 - start..];
      i := i + 1;
    }
  }

  lemma StoredSuffix(a: seq<char>, i: nat, s: string, k: nat)
    requires StoredAt(a, i, s) && k <= |s|
    ensures StoredAt(a, i + k, s[k..]) && a[i..i + k] == s[..k]
  {
    assert a[i..i + k] == a[i..i + |s|][..k] && a[i + k..i + |s|] == a[i..i + |s|][k..];
    assert i + k + |s[k..]| == i + |s|;
    assert forall x | x in s[k..] :: x in s;
  }

  // ----- the buffer -----

  /** Back up to the previous component; at the root already, stay. */
  method BackUp(rpath: array<char>, dest: nat, ghost stack: seq<Component>) returns (d: nat)
    requires dest <= rpath.Length && AtDest(rpath[..dest], stack) && AllProper(stack)
    ensures 1 <= d <= dest && AtDest(rpath[..d], Parent(stack))
  {
    hide AtDest, AllProper, Join;
    d := dest;
    RootOrNot(rpath[..dest], stack);
    if d > 1 {
      ghost var k, c := |Join(Parent(stack))| + 1, stack[|stack| - 1];
      LastComponent(rpath[..dest], stack);
      assert rpath[..dest][..k] == rpath[..k];
      forall i | k <= i < k + |c| ensures rpath[i] != '/' {
        assert rpath[..dest][k + (i - k)] == c[i - k];
      }
      d := d - 1;
      while rpath[d - 1] != '/'
        invariant k <= d <= k + |c| && d < dest
        decreases d
      {
        d := d - 1;
      }
      assert d == k;
    }
  }

  lemma RootOrNot(x: string, stack: seq<Component>)
    requires AtDest(x, stack) && AllProper(stack)
    ensures |x| >= 1 && (|x| == 1 <==> stack == [])
    ensures stack == [] ==> Parent(stack) == stack
  {
    if stack != [] { LastComponent(x, stack); }
  }

  /** Where the last component lies in the buffer. */
  lemma LastComponent(x: string, stack: seq<Component>)
    requires stack != [] && AtDest(x, stack) && AllProper(stack)
    ensures var init, c := Parent(stack), stack[|stack| - 1];
      var k := |Join(init)| + 1;
      && k + |c| <= |x| <= k + |c| + 1 && |c| > 0
      && AtDest(x[..k], init) && x[k - 1] == '/'
      && (forall i | 0 <= i < |c| :: x[k + i] == c[i] && c[i] != '/')
  {
    var init, c := Parent(stack), stack[|stack| - 1];
    var k := |Join(init)| + 1;
    JoinLast(stack);
    assert x[..k] == Join(init) + "/";
    assert forall i | 0 <= i < |c| :: c[i] in c;
  }

  /** The room a buffer of which `limit` bytes may be used gives: the caller's, or one of ours. */
  function RoomOf(given: bool, limit: nat, grants: nat -> bool): Room {
    if given then Fixed else Growing(limit, grants)
  }

  /** ReallocatePool: a bigger buffer with the same beginning, or null. */
  method Reallocate(rpath: array<char>, size: nat, grants: nat -> bool) returns (r: array?<char>)
    requires rpath.Length <= size
    ensures r == null <==> !grants(size)
    ensures r != null ==> fresh(r) && r.Length == size && r[..rpath.Length] == rpath[..]
  {
    if !grants(size) { return null; }
    var b := new char[size];
    forall k | 0 <= k < rpath.Length { b[k] := rpath[k]; }
    assert b[..rpath.Length] == rpath[..];
    return b;
  }

  /** Make sure that a component of `n` bytes fits at `dest`. In the caller's buffer it may not; our own
      grows. */
  method MakeRoom(rpath: array<char>, given: bool, limit: nat, dest: nat, n: nat, grants: nat -> bool)
    returns (buffer: array?<char>, newLimit: nat)
    requires 1 <= dest <= limit <= rpath.Length && (given ==> limit == PATH_MAX) && (!given ==> limit == rpath.Length)
    modifies rpath
    ensures var room := RoomOf(given, limit, grants).Fit(dest + n, n);
      && (buffer == null <==> room.None?)
      && (buffer != null ==>
        && room == Some(RoomOf(given, newLimit, grants)) && room.value.Limit() == newLimit
        && dest + n < newLimit <= buffer.Length && (!given ==> newLimit == buffer.Length)
        && (if given then buffer == rpath else buffer == rpath || fresh(buffer))
        && buffer[..dest] == old(rpath[..dest]))
  {
    if dest + n >= limit {
      if given {
        var d := if dest > 1 then dest - 1 else dest;
        rpath[d] := NUL;
        return null, limit;
      }
      var size := limit;
      if n + 1 > PATH_MAX { size := size + (n + 1); } else { size := size + PATH_MAX; }
      buffer := Reallocate(rpath, size, grants);
      if buffer != null { assert buffer[..dest] == buffer[..rpath.Length][..dest] == rpath[..][..dest]; }
      return buffer, size;
    }
    return rpath, limit;
  }

  /** Put a separator after the result if there is none. */
  method Separate(rpath: array<char>, dest: nat, limit: nat, ghost stack: seq<Component>) returns (d: nat)
    requires dest < limit <= rpath.Length && AtDest(rpath[..dest], stack) && AllProper(stack)
    modifies rpath
    ensures dest <= d <= limit
    ensures forall c: Component :: rpath[..d] + c == Render(stack + [c])
  {
    d := dest;
    EndsInSeparator(rpath[..dest], stack);
    if rpath[dest - 1] != '/' {
      rpath[dest] := '/';
      d := d + 1;
      assert rpath[..d] == old(rpath[..dest]) + "/";
    }
    forall c: Component ensures rpath[..d] + c == Render(stack + [c]) { RenderPush(stack, c); }
  }

  lemma RenderPush(stack: seq<Component>, c: Component)
    ensures Render(stack + [c]) == (if stack == [] then "/" else Render(stack) + "/") + c
  {
    JoinLast(stack + [c]);
    assert (stack + [c])[..|stack|] == stack;
    assert "/" + c == "" + ("/" + c);
  }

  lemma EndsInSeparator(x: string, stack: seq<Component>)
    requires AtDest(x, stack) && AllProper(stack)
    ensures x != "" && (x[|x| - 1] == '/' <==> stack == [] || x == Render(stack) + "/")
  {
    if stack != [] {
      JoinText(stack);
    }
  }

  /** Put the component after the result and end it with NUL. */
  method Append(rpath: array<char>, dest: nat, text: array<char>, start: nat, n: nat) returns (d: nat)
    requires dest + n < rpath.Length && start + n <= text.Length && text != rpath
    modifies rpath
    ensures d == dest + n && rpath[..d] == old(rpath[..dest]) + text[start..start + n] && rpath[d] == NUL
  {
    CopyMem(rpath, dest, text, start, n);
    d := dest + n;
    assert rpath[..][..d] == rpath[..d];
    rpath[d] := NUL;
  }

  // ----- the file system -----

  /** lstat */
  method LStat(fs: Tree, rpath: array<char>, ghost p: seq<Component>) returns (node: Option<Node>)
    requires AllProper(p) && StoredAt(rpath[..], 0, Render(p))
    ensures node == if p in fs then Some(fs[p]) else None
  {
    var n := AsciiStrLen(rpath, 0, Render(p));
    assert rpath[..n] == rpath[..][0..n];
    RenderSplits(p);
    var q := Split(rpath[..n]);
    return if q in fs then Some(fs[q]) else None;
  }

  /** readlink, which stores no more than `size` bytes. */
  method ReadLink(target: string, buf: array<char>, size: nat) returns (n: nat)
    requires size <= buf.Length
    modifies buf
    ensures n == (if |target| <= size then |target| else size) && buf[..n] == target[..n]
  {
    n := if |target| <= size then |target| else size;
    forall k | 0 <= k < n { buf[k] := target[k]; }
    assert buf[..n] == target[..n];
  }

  /** Put the link's text in front of what is left to read, which may lie in the same buffer. */
  method Splice(extra: array<char>, buf: array<char>, n: nat, text: array<char>, end: nat, ghost rest: string)
    returns (ok: bool)
    requires extra.Length == PATH_MAX && n < buf.Length && StoredAt(text[..], end, rest) && buf != extra && buf != text
    requires NUL !in buf[..n]
    modifies extra
    ensures ok <==> n + |rest| < PATH_MAX
    ensures ok ==> StoredAt(extra[..], 0, buf[..n] + rest)
  {
    hide StoredAt;
    StoredWithNul(text[..], end, rest);
    var len := AsciiStrLen(text, end, rest);
    if n + len >= PATH_MAX { return false; }
    ghost var x, y := extra[..n], extra[n + (len + 1)..];
    assert text[end..end + (len + 1)] == rest + [NUL];
    CopyMem(extra, n, text, end, len + 1);
    ghost var b := extra[..];
    CopyMem(extra, 0, buf, 0, n);
    SplicedText(extra[..], b, buf[..n], x, y, rest);
    return true;
  }

  lemma StoredWithNul(a: seq<char>, i: nat, s: string)
    requires StoredAt(a, i, s)
    ensures i + |s| < |a| && a[i..i + |s| + 1] == s + [NUL] && NUL !in s
    ensures a[i] == NUL <==> s == ""
  {
    if s != "" { assert a[i] == s[0] && s[0] in s; }
  }

  lemma SplicedText(a: seq<char>, b: seq<char>, v: string, x: seq<char>, y: seq<char>, rest: string)
    requires b == x + (rest + [NUL]) + y && |x| == |v| && a == b[..0] + v + b[|v|..] && NUL !in v && NUL !in rest
    ensures StoredAt(a, 0, v + rest)
  {
    assert a == v + rest + [NUL] + y;
    assert a[0..|v| + |rest|] == v + rest;
  }

  // ----- RealPath -----

  /** The buffer holds the stack, with room for a NUL. */
  ghost predicate Holds(rpath: array<char>, given: bool, limit: nat, dest: nat, stack: seq<Component>)
    reads rpath
  {
    && 1 <= dest < limit <= rpath.Length && (given ==> limit == PATH_MAX) && (!given ==> limit == rpath.Length)
    && AtDest(rpath[..dest], stack) && AllProper(stack)
  }

  /** A buffer for the result: the one at hand or a new one. */
  twostate predicate SameOrNew(rpath: array<char>, new buffer: array<char>, given: bool) {
    buffer == rpath || (!given && fresh(buffer))
  }

  /** Add a component that is neither "." nor "..", and look at what it names. */
  method AddComponent(fs: Tree, rpath: array<char>, given: bool, limit: nat, dest: nat, text: array<char>,
      start: nat, n: nat,
      grants: nat -> bool, ghost stack: seq<Component>)
    returns (buffer: array<char>, newLimit: nat, newDest: nat, node: Option<Node>)
    requires Holds(rpath, given, limit, dest, stack) && text != rpath
    requires start + n <= text.Length && Proper(text[start..start + n])
    modifies rpath
    ensures SameOrNew(rpath, buffer, given)
    ensures var c := text[start..start + n];
      var room := RoomOf(given, limit, grants).Fit(|Render(stack + [c])|, |c|);
      if room.None? || stack + [c] !in fs then node == None
      else
        && room.value == RoomOf(given, newLimit, grants)
        && Holds(buffer, given, newLimit, newDest, stack + [c])
        && node == Some(fs[stack + [c]])
  {
    hide AtDest, AllProper, Room.Fit, Render, Proper;
    ghost var c := text[start..start + n];
    var d := Separate(rpath, dest, limit, stack);
    assert |rpath[..d] + c| == |Render(stack + [c])|;
    ghost var front := rpath[..d];
    var b, lim := MakeRoom(rpath, given, limit, d, n, grants);
    if b == null { return rpath, limit, dest, None; }
    buffer, newLimit := b, lim;
    newDest := Append(buffer, d, text, start, n);
    assert buffer[..newDest] == front + c == Render(stack + [c]);
    PushProper(stack, c);
    AppendedIsStored(buffer[..], newDest, stack + [c]);
    node := LStat(fs, buffer, stack + [c]);
  }

  lemma AppendedIsStored(a: seq<char>, dest: nat, p: seq<Component>)
    requires AllProper(p) && dest < |a| && a[..dest] == Render(p) && a[dest] == NUL
    ensures StoredAt(a, 0, Render(p)) && AtDest(a[..dest], p)
  {
    RenderIsCanonical(p);
    assert a[0..dest] == a[..dest];
  }

  lemma PushProper(stack: seq<Component>, c: Component)
    requires AllProper(stack) && Proper(c)
    ensures AllProper(stack + [c])
  {
  }

  /** Follow the link just added: splice its text in and back up to where it is resolved from. */
  method FollowLink(rpath: array<char>, given: bool, limit: nat, dest: nat, target: string, text: array<char>, end: nat,
      extra: array?<char>, ghost stack: seq<Component>, ghost rest: string)
    returns (ok: bool, spliced: array<char>, newDest: nat)
    requires Holds(rpath, given, limit, dest, stack) && stack != [] && NUL !in target
    requires StoredAt(text[..], end, rest) && text != rpath && extra != rpath
      && (extra != null ==> extra.Length == PATH_MAX)
    modifies if extra == null then {} else {extra}
    ensures if extra == null then fresh(spliced) else spliced == extra
    ensures spliced.Length == PATH_MAX && spliced != rpath
    ensures var v := Target(target);
      && (ok <==> |v| + |rest| < PATH_MAX)
      && (ok ==> StoredAt(spliced[..], 0, v + rest) && Holds(rpath, given, limit, newDest, Base(Parent(stack), v)))
  {
    var buf := new char[PATH_MAX];
    var n := ReadLink(target, buf, PATH_MAX - 1);
    assert buf[..n] == Target(target);
    assert NUL !in buf[..n] by { TargetHasNoNul(target); }
    buf[n] := NUL;
    assert buf[..n] == Target(target);
    if extra == null { spliced := new char[PATH_MAX]; } else { spliced := extra; }
    ok := Splice(spliced, buf, n, text, end, rest);
    if !ok { return false, spliced, dest; }
    assert buf[0] == '/' <==> Target(target) != "" && Target(target)[0] == '/' by { FirstByte(buf[..], n); }
    if buf[0] == '/' {
      newDest := 1;
      StartsWithSeparator(rpath[..dest], stack);
    } else {
      newDest := BackUp(rpath, dest, stack);
      ParentProper(stack);
    }
  }

  lemma FirstByte(buf: seq<char>, n: nat)
    requires n < |buf| && buf[n] == NUL
    ensures buf[0] == '/' <==> buf[..n] != "" && buf[..n][0] == '/'
  {
  }

  lemma TargetHasNoNul(target: string)
    requires NUL !in target
    ensures NUL !in Target(target)
  {
    assert forall x | x in Target(target) :: x in target;
  }

  lemma StartsWithSeparator(x: string, stack: seq<Component>)
    requires AtDest(x, stack) && AllProper(stack)
    ensures x != "" && x[..1] == Render([])
  {
    RenderIsCanonical(stack);
    assert x[0] == Render(stack)[0];
  }

  lemma ParentProper(stack: seq<Component>)
    requires AllProper(stack)
    ensures AllProper(Parent(stack))
  {
  }

  /** Take the next component at `start`, of `n` bytes and neither "." nor "..", followed by `rest`. */
  method Descend(fs: Tree, rpath: array<char>, given: bool, limit: nat, dest: nat, text: array<char>, start: nat,
      n: nat,
      extra: array?<char>, numLinks: nat, grants: nat -> bool, ghost stack: seq<Component>, ghost rest: string)
    returns (ok: bool, buffer: array<char>, newLimit: nat, newDest: nat, newText: array<char>, end: nat,
      newExtra: array?<char>, newLinks: nat, ghost newStack: seq<Component>, ghost pending: string)
    requires Readable(fs) && Holds(rpath, given, limit, dest, stack) && numLinks <= MAX_LINKS
    requires text != rpath && extra != rpath && (extra != null ==> extra.Length == PATH_MAX)
    requires start + n <= text.Length && Proper(text[start..start + n]) && StoredAt(text[..], start + n, rest)
    modifies rpath, if extra == null then {} else {extra}
    ensures SameOrNew(rpath, buffer, given)
    ensures newExtra == extra || (extra == null && fresh(newExtra))
    ensures newText == text || newText == newExtra
    ensures var o := Enter(fs, RoomOf(given, limit, grants), stack, old(text[start..start + n]), rest,
      MAX_LINKS - numLinks);
      && (!ok ==> o.Failed?)
      && (ok ==>
        && numLinks <= newLinks <= MAX_LINKS && (newLinks == numLinks ==> pending == rest)
        && o == Resolve(fs, RoomOf(given, newLimit, grants), newStack, pending, MAX_LINKS - newLinks))
    ensures ok ==>
      && Holds(buffer, given, newLimit, newDest, newStack) && StoredAt(newText[..], end, pending)
      && newText != buffer && newExtra != buffer && (newExtra != null ==> newExtra.Length == PATH_MAX)
  {
    hide Resolve, Enter, Holds, StoredAt, Room.Fit, Render, RoomOf, Target, Readable;
    ghost var c := text[start..start + n];
    EnterCases(fs, RoomOf(given, limit, grants), stack, c, rest, MAX_LINKS - numLinks);
    var node: Option<Node>;
    buffer, newLimit, newDest, node := AddComponent(fs, rpath, given, limit, dest, text, start, n, grants, stack);
    newText, end, newExtra, newLinks, newStack, pending := text, start + n, extra, numLinks, stack + [c], rest;
    ok := node.Some?;
    if !ok || !node.value.Link? { return; }
    newLinks := newLinks + 1;
    if newLinks > MAX_LINKS || node.value.target.None? {
      ok := false;
      return;
    }
    LinkTarget(fs, stack + [c]);
    newStack, pending := Base(stack, Target(node.value.target.value)), Target(node.value.target.value) + rest;
    ok, newText, newDest := FollowLink(buffer, given, newLimit, newDest, node.value.target.value, text, end, extra,
      stack + [c], rest);
    assert Parent(stack + [c]) == stack;
    newExtra, end := newText, 0;
  }

  lemma LinkTarget(fs: Tree, p: seq<Component>)
    requires Readable(fs) && p in fs && fs[p].Link? && fs[p].target.Some?
    ensures NUL !in fs[p].target.value
  {
  }

  /** The outcomes of entering a component. */
  lemma EnterCases(fs: Tree, room: Room, stack: seq<Component>, c: Component, rest: string, links: nat)
    ensures var o, p, r := Enter(fs, room, stack, c, rest, links), stack + [c], room.Fit(|Render(stack + [c])|, |c|);
      if r.None? || p !in fs then o.Failed?
      else if !fs[p].Link? then o == Resolve(fs, r.value, p, rest, links)
      else if links == 0 || fs[p].target.None? || |Target(fs[p].target.value)| + |rest| >= PATH_MAX then o.Failed?
      else var v := Target(fs[p].target.value); o == Resolve(fs, r.value, Base(stack, v), v + rest, links - 1)
  {
    hide Resolve, Room.Fit, Render, Target;
  }

  /** Take the component `text` continues with at `start`, of `n` bytes: stay, back up or go down. */
  method Advance(fs: Tree, rpath: array<char>, given: bool, limit: nat, dest: nat, text: array<char>, start: nat,
      n: nat,
      extra: array?<char>, numLinks: nat, grants: nat -> bool, ghost stack: seq<Component>, ghost pending: string)
    returns (ok: bool, buffer: array<char>, newLimit: nat, newDest: nat, newText: array<char>, end: nat,
      newExtra: array?<char>, newLinks: nat, ghost newStack: seq<Component>, ghost left: string)
    requires Readable(fs) && Holds(rpath, given, limit, dest, stack) && numLinks <= MAX_LINKS
    requires text != rpath && extra != rpath && (extra != null ==> extra.Length == PATH_MAX)
    requires start + n < text.Length && text[start..start + n] == First(pending) && n > 0
    requires StoredAt(text[..], start + n, Rest(pending))
    requires n == 1 && text[start] == '.' <==> First(pending) == "."
    requires n == 2 && text[start] == '.' && text[start + 1] == '.' <==> First(pending) == ".."
    requires First(pending) == "." || First(pending) == ".." || Proper(First(pending))
    modifies rpath, if extra == null then {} else {extra}
    ensures SameOrNew(rpath, buffer, given)
    ensures newExtra == extra || (extra == null && fresh(newExtra))
    ensures newText == text || newText == newExtra
    ensures var o := Resolve(fs, RoomOf(given, limit, grants), stack, pending, MAX_LINKS - numLinks);
      && (!ok ==> o.Failed?)
      && (ok ==>
        && numLinks <= newLinks <= MAX_LINKS && (newLinks == numLinks ==> |left| < |pending|)
        && o == Resolve(fs, RoomOf(given, newLimit, grants), newStack, left, MAX_LINKS - newLinks))
    ensures ok ==>
      && Holds(buffer, given, newLimit, newDest, newStack) && StoredAt(newText[..], end, left)
      && newText != buffer && newExtra != buffer && (newExtra != null ==> newExtra.Length == PATH_MAX)
      && end < newText.Length && (newText[end] == NUL <==> left == "")
  {
    hide Holds, Enter, Room.Fit, Render, RoomOf, Target, Readable, First, Rest, StoredAt, Resolve, Proper;
    ResolveCases(fs, RoomOf(given, limit, grants), stack, pending, MAX_LINKS - numLinks);
    ok, buffer, newLimit, newDest, newText, end := true, rpath, limit, dest, text, start + n;
    newExtra, newLinks, newStack, left := extra, numLinks, stack, Rest(pending);
    if n == 1 && text[start] == '.' {
    } else if n == 2 && text[start] == '.' && text[start + 1] == '.' {
      newDest := Shorten(rpath, given, limit, dest, stack);
      newStack := Parent(stack);
    } else {
      ok, buffer, newLimit, newDest, newText, end, newExtra, newLinks, newStack, left :=
        Descend(fs, rpath, given, limit, dest, text, start, n, extra, numLinks, grants, stack, Rest(pending));
    }
    if ok { StoredWithNul(newText[..], end, left); }
  }

  /** The loop of RealPath: read `text` to its end, keeping the result so far in the buffer. */
  method Canonicalize(fs: Tree, first: array<char>, given: bool, name: array<char>, grants: nat -> bool,
      ghost path: string)
    returns (ok: bool, rpath: array<char>, dest: nat, limit: nat, ghost stack: seq<Component>)
    requires Readable(fs) && StoredAt(name[..], 0, path) && name != first
    requires Holds(first, given, PATH_MAX, 1, [])
    modifies first
    ensures SameOrNew(first, rpath, given)
    ensures var o := Resolve(fs, RoomOf(given, PATH_MAX, grants), [], path, MAX_LINKS);
      (ok <==> o.Resolved?) && (ok ==> o.stack == stack && Holds(rpath, given, limit, dest, stack))
  {
    hide Holds, Enter, Room.Fit, Render, RoomOf, Target, Readable, First, Rest, StoredAt, Resolve, Proper;
    StoredWithNul(name[..], 0, path);
    var text, end: nat, extra: array?<char>, numLinks: nat := name, 0, null, 0;
    rpath, dest, limit, stack := first, 1, PATH_MAX, [];
    ghost var pending := path;
    while text[end] != NUL
      invariant SameOrNew(first, rpath, given) && numLinks <= MAX_LINKS
      invariant Holds(rpath, given, limit, dest, stack) && StoredAt(text[..], end, pending)
      invariant end < text.Length && (text[end] == NUL <==> pending == "")
      invariant text != rpath && extra != rpath
      invariant extra != null ==> extra.Length == PATH_MAX && fresh(extra)
      invariant text == name || text == extra
      invariant Resolve(fs, RoomOf(given, limit, grants), stack, pending, MAX_LINKS - numLinks)
        == Resolve(fs, RoomOf(given, PATH_MAX, grants), [], path, MAX_LINKS)
      decreases MAX_LINKS - numLinks, |pending|
    {
      var start := SkipSeparators(text, end, pending);
      var n := NextComponent(text, end, start, pending);
      if n == 0 { break; }
      var more: bool;
      more, rpath, limit, dest, text, end, extra, numLinks, stack, pending :=
        Advance(fs, rpath, given, limit, dest, text, start, n, extra, numLinks, grants, stack, pending);
      if !more { return false, rpath, dest, limit, stack; }
    }
    ResolveCases(fs, RoomOf(given, limit, grants), stack, pending, MAX_LINKS - numLinks);
    return true, rpath, dest, limit, stack;
  }

  /** The length of the component that starts at `start`. */
  method NextComponent(text: array<char>, end: nat, start: nat, ghost pending: string) returns (n: nat)
    requires StoredAt(text[..], end, pending) && start == end + Slashes(pending)
    ensures start + n < text.Length && text[start..start + n] == First(pending)
    ensures StoredAt(text[..], start + n, Rest(pending))
    ensures n == |First(pending)|
    ensures n == 1 && text[start] == '.' <==> First(pending) == "."
    ensures n == 2 && text[start] == '.' && text[start + 1] == '.' <==> First(pending) == ".."
    ensures First(pending) == "" || First(pending) == "." || First(pending) == ".." || Proper(First(pending))
  {
    hide StoredAt, Proper, Slashes, Span, First, Rest, Trim;
    ComponentAt(text[..], end, pending);
    var e := ComponentEnd(text, start, Trim(pending));
    n := e - start;
    assert text[..][start..start + n] == text[start..start + n];
    DotsByByte(text[..], start, First(pending));
  }

  /** Where the next component lies in the text, and what comes after it. */
  lemma ComponentAt(a: seq<char>, end: nat, s: string)
    requires StoredAt(a, end, s)
    ensures var i, n := end + Slashes(s), Span(Trim(s));
      && StoredAt(a, i, Trim(s)) && i + n < |a|
      && a[i..i + n] == First(s) && n == |First(s)| && StoredAt(a, i + n, Rest(s))
    ensures First(s) == "" || First(s) == "." || First(s) == ".." || Proper(First(s))
  {
    hide StoredAt, Proper, Slashes, Span, First, Rest, Trim;
    ComponentParts(s);
    StoredSuffix(a, end, s, Slashes(s));
    StoredSuffix(a, end + Slashes(s), Trim(s), Span(Trim(s)));
    StoredEnds(a, end, s);
    StoredEnds(a, end + Slashes(s) + Span(Trim(s)), Rest(s));
    if First(s) != "" && First(s) != "." && First(s) != ".." { FirstIsProper(s); }
  }

  lemma ComponentParts(s: string)
    ensures Trim(s) == s[Slashes(s)..]
    ensures var t := Trim(s); First(s) == t[..Span(t)] && Rest(s) == t[Span(t)..] && |First(s)| == Span(t)
  {
    hide Slashes, Span;
  }

  lemma StoredEnds(a: seq<char>, i: nat, s: string)
    requires StoredAt(a, i, s)
    ensures i < |a| && NUL !in s
  {
  }

  /** "." and ".." are told by their length and first bytes. */
  lemma DotsByByte(a: seq<char>, i: nat, c: Component)
    requires i + |c| < |a| && a[i..i + |c|] == c
    ensures |c| == 1 && a[i] == '.' <==> c == "."
    ensures |c| == 2 && a[i] == '.' && a[i + 1] == '.' <==> c == ".."
  {
    if |c| > 0 { assert a[i] == c[0]; }
    if |c| > 1 { assert a[i + 1] == c[1]; }
  }

  /** Back up over "..". */
  method Shorten(rpath: array<char>, given: bool, limit: nat, dest: nat, ghost stack: seq<Component>) returns (d: nat)
    requires Holds(rpath, given, limit, dest, stack)
    ensures Holds(rpath, given, limit, d, Parent(stack))
  {
    d := BackUp(rpath, dest, stack);
    ParentProper(stack);
  }

  lemma ResolveCases(fs: Tree, room: Room, stack: seq<Component>, s: string, links: nat)
    ensures var c, rest, o := First(s), Rest(s), Resolve(fs, room, stack, s, links);
      if c == "" then o == Resolved(stack, links)
      else if c == "." then o == Resolve(fs, room, stack, rest, links)
      else if c == ".." then o == Resolve(fs, room, Parent(stack), rest, links)
      else o == Enter(fs, room, stack, c, rest, links)
    ensures First(s) != "" ==> |Rest(s)| < |s|
    ensures s == "" ==> First(s) == ""
  {
    hide Enter;
  }

  /** What RealPath returns: null, or a buffer with the resolved path. */
  ghost predicate Returned(r: array?<char>, o: Option<string>)
    reads if r == null then {} else {r}
  {
    (r == null <==> o.None?) && (r != null ==> o.Some? && StoredAt(r[..], 0, o.value))
  }

  /** RealPath. `text` is the path `name` points to, `grants` tells the sizes the allocator has memory
      for. */
  method RealPath(fs: Tree, name: array?<char>, resolved: array?<char>, grants: nat -> bool, ghost text: string)
    returns (r: array?<char>)
    requires Readable(fs) && (name != null ==> StoredAt(name[..], 0, text))
    requires resolved != null ==> resolved.Length >= PATH_MAX && resolved != name
    modifies if resolved == null then {} else {resolved}
    ensures name == null ==> r == null
    ensures r != null ==> if resolved == null then fresh(r) else r == resolved
    ensures name != null && resolved != null ==> Returned(r, RealPathOf(fs, Fixed, text))
    ensures name != null && resolved == null ==>
      Returned(r, if grants(PATH_MAX) then RealPathOf(fs, Growing(PATH_MAX, grants), text) else None)
  {
    if name == null || name[0] == NUL { return null; }
    var given, rpath := resolved != null, resolved;
    if resolved == null {
      if !grants(PATH_MAX) { return null; }
      rpath := new char[PATH_MAX];
    }
    if name[0] != '/' { return null; }
    rpath[0] := '/';
    var dest := 1;
    assert rpath[..1] == "/" == Render([]);
    var ok: bool;
    var limit: nat;
    ghost var stack;
    ok, rpath, dest, limit, stack := Canonicalize(fs, rpath, given, name, grants, text);
    if !ok { return null; }
    Finish(rpath, dest, stack);
    return rpath;
  }

  /** Drop a separator at the end and end the result with NUL. */
  method Finish(rpath: array<char>, dest: nat, ghost stack: seq<Component>)
    requires 1 <= dest < rpath.Length && AtDest(rpath[..dest], stack) && AllProper(stack)
    modifies rpath
    ensures StoredAt(rpath[..], 0, Render(stack))
  {
    var d := dest;
    EndsInSeparator(rpath[..dest], stack);
    RootOrNot(rpath[..dest], stack);
    if d > 1 && rpath[d - 1] == '/' { d := d - 1; }
    assert rpath[..d] == Render(stack);
    rpath[d] := NUL;
    assert rpath[..][..d] == rpath[..d];
    AppendedIsStored(rpath[..], d, stack);
  }
}
