/** Properties of path resolution. */
module PathLaws {
  import opened Wrappers
  import opened PathResolution

  // ----- texts -----

  lemma {:induction false} SlashesIs(s: string, n: nat)
    requires n <= |s| && (forall i | 0 <= i < n :: s[i] == '/') && (n < |s| ==> s[n] != '/')
    ensures Slashes(s) == n
  {
    if n > 0 { SlashesIs(s[1..], n - 1); }
  }

  lemma {:induction false} SpanIs(s: string, n: nat)
    requires n <= |s| && (forall i | 0 <= i < n :: s[i] != '/') && (n < |s| ==> s[n] == '/')
    ensures Span(s) == n
  {
    if n > 0 { SpanIs(s[1..], n - 1); }
  }

  /** Separators, a component and what follows it are read as that. */
  lemma ReadsAs(s: string, n: nat, c: Component, r: string)
    requires n <= |s| && (forall i | 0 <= i < n :: s[i] == '/') && s[n..] == c + r
    requires '/' !in c && (r == "" || r[0] == '/') && (c == "" ==> r == "")
    ensures First(s) == c && Rest(s) == r
  {
    assert n < |s| ==> s[n] == (c + r)[0];
    assert forall x | x in c :: x != '/';
    SlashesIs(s, n);
    assert forall i | 0 <= i < |c| :: (c + r)[i] == c[i] && c[i] in c;
    SpanIs(c + r, |c|);
  }

  /** How a text reads: so many separators, then the first component, then the rest. */
  lemma FirstAndRest(s: string)
    ensures Slashes(s) <= |s| && s[Slashes(s)..] == First(s) + Rest(s) && '/' !in First(s)
    ensures First(s) == "" ==> Rest(s) == "" && Slashes(s) == |s|
  {
    SpanParts(Trim(s));
    hide Slashes, Span;
  }

  lemma SpanParts(t: string)
    ensures '/' !in t[..Span(t)] && t == t[..Span(t)] + t[Span(t)..]
    ensures Span(t) == 0 ==> t == "" || t[0] == '/'
  {
    var n := Span(t);
    hide Span;
    forall x | x in t[..n] ensures x != '/' {}
  }

  /** A text that goes on with a separator begins with the same component. */
  lemma FirstOfAppend(s: string, r: string)
    requires r == "" || r[0] == '/'
    requires First(s) != ""
    ensures First(s + r) == First(s) && Rest(s + r) == Rest(s) + r
  {
    FirstAndRest(s);
    var n := Slashes(s);
    assert (s + r)[n..] == s[n..] + r;
    assert (First(s) + Rest(s)) + r == First(s) + (Rest(s) + r);
    hide First, Rest;
    ReadsAs(s + r, n, First(s), Rest(s) + r);
  }

  /** Separators in front of a text do not matter. */
  lemma NothingFirst(s: string, r: string)
    requires First(s) == "" && (r == "" || r[0] == '/')
    ensures First(s + r) == First(r) && Rest(s + r) == Rest(r)
  {
    FirstAndRest(s);
    FirstAndRest(r);
    var n := |s| + Slashes(r);
    assert (s + r)[n..] == r[Slashes(r)..];
    hide First, Rest;
    ReadsAs(s + r, n, First(r), Rest(r));
  }

  /** The components of two texts joined at a separator. */
  lemma {:induction false} SplitAppend(s: string, r: string)
    requires r == "" || r[0] == '/'
    ensures Split(s + r) == Split(s) + Split(r)
    decreases |s|
  {
    hide First, Rest;
    if First(s) == "" {
      NothingFirst(s, r);
    } else {
      FirstOfAppend(s, r);
      SplitAppend(Rest(s), r);
      SplitIs(s);
      SplitIs(s + r);
      hide Split;
    }
  }

  lemma SplitIs(s: string)
    ensures Split(s) == if First(s) == "" then [] else [First(s)] + Split(Rest(s))
  {
    hide First, Rest;
  }

  /** A separator and a name read as that name. */
  lemma FirstOfName(c: Component, r: string)
    requires c != "" && '/' !in c && (r == "" || r[0] == '/')
    ensures First("/" + c + r) == c && Rest("/" + c + r) == r
  {
    var s := "/" + c + r;
    assert s[1..] == c + r;
    ReadsAs(s, 1, c, r);
  }

  lemma {:induction false} JoinSplits(p: seq<Component>)
    requires AllProper(p)
    ensures Split(Join(p)) == p && (Join(p) == "" || Join(p)[0] == '/')
  {
    hide Split, Join, Proper;
    if p == [] {
      NoComponents();
    } else {
      var init, c := p[..|p| - 1], p[|p| - 1];
      JoinSplits(init);
      OneName(c);
      JoinLast(p);
      SplitAppend(Join(init), "/" + c);
      assert p == init + [c];
    }
  }

  lemma JoinLast(p: seq<Component>)
    requires p != []
    ensures Join(p) == Join(p[..|p| - 1]) + ("/" + p[|p| - 1])
  {
  }

  lemma OneName(c: Component)
    requires Proper(c)
    ensures Split("/" + c) == [c]
  {
    FirstOfName(c, "");
    assert "/" + c + "" == "/" + c;
    assert First("") == "";
    hide First, Rest;
  }

  /** The components of the text of a stack are the stack. */
  lemma RenderSplits(p: seq<Component>)
    requires AllProper(p)
    ensures Split(Render(p)) == p
  {
    JoinSplits(p);
    assert Split("/") == [] by { assert Trim("/") == ""; }
  }

  lemma {:induction false} JoinAppend(p: seq<Component>, q: seq<Component>)
    ensures Join(p + q) == Join(p) + Join(q)
    decreases |q|
  {
    if q == [] {
      assert p + q == p;
    } else {
      var q' := q[..|q| - 1];
      assert (p + q)[..|p + q| - 1] == p + q';
      JoinAppend(p, q');
      assert Join(p) + (Join(q') + "/" + q[|q| - 1]) == (Join(p) + Join(q')) + "/" + q[|q| - 1];
    }
  }

  lemma JoinStep(p: seq<Component>)
    requires p != []
    ensures Join(p) == "/" + p[0] + Join(p[1..])
  {
    assert p == [p[0]] + p[1..];
    JoinAppend([p[0]], p[1..]);
    assert Join([p[0]]) == Join([]) + "/" + p[0];
  }

  // ----- canonical texts -----

  predicate SinglySeparated(s: string) {
    forall i | 0 <= i < |s| - 1 && s[i] == '/' :: s[i + 1] != '/'
  }

  /** An absolute path without empty components, "." or "..", and without a trailing separator unless
      it is the root. */
  predicate Canonical(s: string) {
    && s != "" && s[0] == '/' && NUL !in s
    && (|s| > 1 ==> s[|s| - 1] != '/')
    && SinglySeparated(s)
    && "." !in Split(s) && ".." !in Split(s)
  }

  /** The texts of stacks of proper components are canonical. */
  lemma {:induction false} RenderIsCanonical(p: seq<Component>)
    requires AllProper(p)
    ensures Canonical(Render(p))
  {
    RenderSplits(p);
    if p != [] {
      JoinText(p);
    }
    forall i | 0 <= i < |p| ensures p[i] != "." && p[i] != ".." {}
  }

  lemma {:induction false} JoinText(p: seq<Component>)
    requires AllProper(p) && p != []
    ensures var s := Join(p); |s| > 1 && s[0] == '/' && NUL !in s && s[|s| - 1] != '/' && SinglySeparated(s)
  {
    var init, c, s := p[..|p| - 1], p[|p| - 1], Join(p);
    var t := Join(init);
    if init != [] { JoinText(init); }
    assert s == t + "/" + c;
    hide Join;
    NameAfterText(t, c);
  }

  lemma NameAfterText(t: string, c: Component)
    requires Proper(c) && NUL !in t && SinglySeparated(t) && (t == "" || (t[0] == '/' && t[|t| - 1] != '/'))
    ensures var s := t + "/" + c; |s| > 1 && s[0] == '/' && NUL !in s && s[|s| - 1] != '/' && SinglySeparated(s)
  {
    var s, n := t + "/" + c, |t|;
    assert forall x | x in c :: x != '/';
    assert forall i | 0 <= i < |c| :: s[n + 1 + i] == c[i] && c[i] in c;
    assert forall i | 0 <= i < n :: s[i] == t[i];
    assert s[n] == '/';
    assert s[|s| - 1] == c[|c| - 1];
    forall i | 0 <= i < |s| - 1 && s[i] == '/' ensures s[i + 1] != '/' {
      if i >= n { assert s[i + 1] == c[i - n]; } else { assert t[i] == '/' && t[i + 1] != '/'; }
    }
  }

  /** A canonical text is the text of its components, which are proper. */
  lemma CanonicalIsRendered(s: string)
    requires Canonical(s)
    ensures AllProper(Split(s)) && Render(Split(s)) == s
  {
    if |s| == 1 {
      assert s == "/" && Trim(s) == "";
    } else {
      Unjoin(s);
    }
  }

  lemma {:induction false} Unjoin(s: string)
    requires |s| > 1 && s[0] == '/' && NUL !in s && s[|s| - 1] != '/' && SinglySeparated(s)
    requires "." !in Split(s) && ".." !in Split(s)
    ensures Split(s) != [] && AllProper(Split(s)) && Join(Split(s)) == s
    decreases |s|
  {
    hide First, Rest, Split, Join;
    var c, r := First(s), Rest(s);
    Head(s);
    SplitIs(s);
    assert c in Split(s);
    assert Proper(c);
    if r != "" {
      RestIsText(s, c, r);
      assert forall x | x in Split(r) :: x in Split(s);
      Unjoin(r);
    } else {
      NoComponents();
    }
    JoinStep(Split(s));
    assert Split(s)[1..] == Split(r);
  }

  lemma NoComponents()
    ensures Split("") == [] && Join([]) == ""
  {
    assert First("") == "";
  }

  lemma Head(s: string)
    requires |s| > 1 && s[0] == '/' && SinglySeparated(s) && NUL !in s
    ensures First(s) != "" && '/' !in First(s) && NUL !in First(s) && s == "/" + First(s) + Rest(s)
  {
    assert s[1] != '/';
    SlashesIs(s, 1);
    FirstAndRest(s);
    var c, r := First(s), Rest(s);
    assert s == s[..1] + s[1..];
    assert s == "/" + c + r;
    forall x | x in c ensures x in s { assert x in s[1..]; }
    hide First, Rest;
  }

  lemma RestIsText(s: string, c: Component, r: string)
    requires s == "/" + c + r && r != "" && r[0] == '/' && c != ""
    requires NUL !in s && s[|s| - 1] != '/' && SinglySeparated(s)
    ensures |r| > 1 && NUL !in r && r[|r| - 1] != '/' && SinglySeparated(r)
  {
    var n := |s| - |r|;
    assert forall i | 0 <= i < |r| :: r[i] == s[n + i];
    forall x | x in r ensures x in s {}
    forall i | 0 <= i < |r| - 1 && r[i] == '/' ensures r[i + 1] != '/' {
      assert s[n + i] == '/';
      assert s[n + i + 1] != '/';
    }
  }

  // ----- what a resolved path is -----

  /** Every prefix of the stack exists and is not a symbolic link. */
  predicate Settled(fs: Tree, p: seq<Component>) {
    && AllProper(p)
    && forall n | 0 < n <= |p| :: p[..n] in fs && !fs[p[..n]].Link?
  }

  lemma SettledParent(fs: Tree, p: seq<Component>)
    requires Settled(fs, p)
    ensures Settled(fs, Parent(p))
  {
    var q := Parent(p);
    forall n | 0 < n <= |q| ensures q[..n] in fs && !fs[q[..n]].Link? {
      assert q[..n] == p[..n];
    }
  }

  lemma SettledChild(fs: Tree, p: seq<Component>, c: Component)
    requires Settled(fs, p) && Proper(c) && p + [c] in fs && !fs[p + [c]].Link?
    ensures Settled(fs, p + [c])
  {
    var q := p + [c];
    forall n | 0 < n <= |q| ensures q[..n] in fs && !fs[q[..n]].Link? {
      if n <= |p| { assert q[..n] == p[..n]; } else { assert q[..n] == q; }
    }
  }

  lemma RootIsSettled(fs: Tree)
    ensures Settled(fs, [])
  {
  }

  lemma FirstIsProper(s: string)
    requires NUL !in s && First(s) != "" && First(s) != "." && First(s) != ".."
    ensures Proper(First(s)) && NUL !in Rest(s)
  {
    assert forall x | x in First(s) :: x in Trim(s);
    assert forall x | x in Trim(s) :: x in s;
    assert forall x | x in Rest(s) :: x in Trim(s);
  }

  lemma RestHasNoNul(s: string)
    requires NUL !in s
    ensures NUL !in Rest(s)
  {
    assert forall x | x in Rest(s) :: x in Trim(s);
    assert forall x | x in Trim(s) :: x in s;
  }

  lemma SplicedHasNoNul(fs: Tree, p: seq<Component>, rest: string)
    requires Readable(fs) && p in fs && fs[p].Link? && fs[p].target.Some? && NUL !in rest
    ensures NUL !in Target(fs[p].target.value) + rest
  {
    var t := fs[p].target.value;
    assert forall x | x in Target(t) :: x in t;
  }

  /** Resolution ends, if it succeeds, at a stack of proper components each prefix of which exists and
      is not a symbolic link. */
  lemma {:induction false} ResolvedIsSettled(fs: Tree, room: Room, stack: seq<Component>, s: string, links: nat)
    requires Readable(fs) && NUL !in s && Settled(fs, stack)
    ensures var o := Resolve(fs, room, stack, s, links); o.Resolved? ==> Settled(fs, o.stack)
    decreases links, |s|
  {
    hide First, Rest, Target, Render, Room.Fit, Settled, Proper;
    var c, rest := First(s), Rest(s);
    if c == "" {
    } else if c == "." {
      RestHasNoNul(s);
      ResolvedIsSettled(fs, room, stack, rest, links);
    } else if c == ".." {
      RestHasNoNul(s);
      SettledParent(fs, stack);
      ResolvedIsSettled(fs, room, Parent(stack), rest, links);
    } else {
      FirstIsProper(s);
      var p, fit := stack + [c], room.Fit(|Render(stack + [c])|, |c|);
      if fit.Some? && p in fs {
        if !fs[p].Link? {
          SettledChild(fs, stack, c);
          ResolvedIsSettled(fs, fit.value, p, rest, links);
        } else if links > 0 && fs[p].target.Some? {
          var v := Target(fs[p].target.value);
          SplicedHasNoNul(fs, p, rest);
          RootIsSettled(fs);
          if |v| + |rest| < PATH_MAX {
            ResolvedIsSettled(fs, fit.value, Base(stack, v), v + rest, links - 1);
          }
        }
      }
    }
  }

  /** What RealPath returns is canonical, and every prefix of it exists and is not a symbolic link. */
  lemma ResultIsCanonical(fs: Tree, room: Room, name: string)
    requires Readable(fs) && NUL !in name && RealPathOf(fs, room, name).Some?
    ensures name != "" && name[0] == '/'
    ensures var q := RealPathOf(fs, room, name).value; Canonical(q) && Settled(fs, Split(q))
  {
    ResolvedIsSettled(fs, room, [], name, MAX_LINKS);
    var p := Resolve(fs, room, [], name, MAX_LINKS).stack;
    RenderIsCanonical(p);
    RenderSplits(p);
  }
}
