/**
  Symbolic links in RealPath, on path texts: what a link may be replaced by, and how many are followed.
*/
module PathLinks {
  import opened Wrappers
  import opened PathResolution
  import opened PathLaws
  import opened PathWalk

  // ----- texts that stay short -----

  /** No link's text is longer than `n` bytes. */
  predicate TargetsWithin(fs: Tree, n: nat) {
    forall p | p in fs && fs[p].Link? && fs[p].target.Some? :: |fs[p].target.value| <= n
  }

  /** A text that leaves room for every link that may still be followed never gets too long. */
  lemma {:induction false} NeverTooLong(fs: Tree, n: nat, room: Room, stack: seq<Component>, s: string, links: nat)
    requires TargetsWithin(fs, n) && |s| + links * n < PATH_MAX
    ensures Resolve(fs, room, stack, s, links) != Failed(TooLong)
    decreases links, |s|, 0
  {
    var c, rest := First(s), Rest(s);
    hide First, Rest;
    if c == "" {
    } else if c == "." {
      NeverTooLong(fs, n, room, stack, rest, links);
    } else if c == ".." {
      NeverTooLong(fs, n, room, Parent(stack), rest, links);
    } else {
      NeverTooLongEnter(fs, n, room, stack, c, rest, links);
    }
  }

  lemma {:induction false} NeverTooLongEnter(fs: Tree, n: nat, room: Room, stack: seq<Component>, c: Component,
      rest: string, links: nat)
    requires TargetsWithin(fs, n) && |rest| + links * n < PATH_MAX
    ensures Enter(fs, room, stack, c, rest, links) != Failed(TooLong)
    decreases links, |rest|, 1
  {
    hide Resolve, Room.Fit, Render, Base;
    var p, fit := stack + [c], room.Fit(|Render(stack + [c])|, |c|);
    if fit.Some? && p in fs {
      if !fs[p].Link? {
        NeverTooLong(fs, n, fit.value, p, rest, links);
      } else if links > 0 && fs[p].target.Some? {
        var v := Target(fs[p].target.value);
        OneLinkLess(links, n);
        NeverTooLong(fs, n, fit.value, Base(stack, v), v + rest, links - 1);
      }
    }
  }

  lemma OneLinkLess(links: nat, n: nat)
    requires links > 0
    ensures links * n == (links - 1) * n + n
  {
  }

  // ----- fewer links -----

  /** Links that a path does not need may be taken away. */
  lemma {:induction false} FewerLinks(fs: Tree, room: Room, stack: seq<Component>, s: string, links: nat, k: nat)
    requires var o := Resolve(fs, room, stack, s, links); o.Resolved? && k <= o.links
    ensures var o := Resolve(fs, room, stack, s, links);
      o.links <= links && Resolve(fs, room, stack, s, links - k) == Resolved(o.stack, o.links - k)
    decreases links, |s|, 0
  {
    var c, rest := First(s), Rest(s);
    hide First, Rest, Target;
    LinksLeft(fs, room, stack, s, links);
    if c == "" {
    } else if c == "." {
      FewerLinks(fs, room, stack, rest, links, k);
    } else if c == ".." {
      FewerLinks(fs, room, Parent(stack), rest, links, k);
    } else {
      FewerLinksEnter(fs, room, stack, c, rest, links, k);
    }
  }

  lemma {:induction false} FewerLinksEnter(fs: Tree, room: Room, stack: seq<Component>, c: Component, rest: string,
      links: nat, k: nat)
    requires var o := Enter(fs, room, stack, c, rest, links); o.Resolved? && k <= o.links <= links
    ensures var o := Enter(fs, room, stack, c, rest, links);
      Enter(fs, room, stack, c, rest, links - k) == Resolved(o.stack, o.links - k)
    decreases links, |rest|, 1
  {
    hide Resolve, Room.Fit, Render, Target, Enter, Base;
    FitToEnter(fs, room, stack, c, rest, links);
    var p, r := stack + [c], room.Fit(|Render(stack + [c])|, |c|).value;
    EnterIs(fs, room, stack, c, rest, links);
    EnterIs(fs, room, stack, c, rest, links - k);
    if !fs[p].Link? {
      FewerLinks(fs, r, p, rest, links, k);
    } else {
      var v := Target(fs[p].target.value);
      FewerLinks(fs, r, Base(stack, v), v + rest, links - 1, k);
    }
  }

  lemma {:induction false} LinksLeft(fs: Tree, room: Room, stack: seq<Component>, s: string, links: nat)
    ensures var o := Resolve(fs, room, stack, s, links); o.Resolved? ==> o.links <= links
    decreases links, |s|, 0
  {
    var c, rest := First(s), Rest(s);
    hide First, Rest, Target, Enter;
    if c == "" {
    } else if c == "." {
      LinksLeft(fs, room, stack, rest, links);
    } else if c == ".." {
      LinksLeft(fs, room, Parent(stack), rest, links);
    } else {
      LinksLeftEnter(fs, room, stack, c, rest, links);
    }
  }

  lemma {:induction false} LinksLeftEnter(fs: Tree, room: Room, stack: seq<Component>, c: Component, rest: string,
      links: nat)
    ensures var o := Enter(fs, room, stack, c, rest, links); o.Resolved? ==> o.links <= links
    decreases links, |rest|, 1
  {
    hide Resolve, Room.Fit, Render, Target, Enter, Base;
    if Enter(fs, room, stack, c, rest, links).Resolved? {
      FitToEnter(fs, room, stack, c, rest, links);
      var p, r := stack + [c], room.Fit(|Render(stack + [c])|, |c|).value;
      EnterIs(fs, room, stack, c, rest, links);
      if !fs[p].Link? {
        LinksLeft(fs, r, p, rest, links);
      } else {
        var v := Target(fs[p].target.value);
        LinksLeft(fs, r, Base(stack, v), v + rest, links - 1);
      }
    }
  }

  // ----- what a link stands for -----

  /** The entry `c` where `front` leads is a symbolic link with text `t`, which readlink gives in full, and a link
      may still be followed there. */
  predicate LinkAt(fs: Tree, room: Room, front: string, c: Component, t: string, links: nat) {
    var o := Resolve(fs, room, [], front, links);
    && o.Resolved? && 0 < o.links <= links
    && c != "" && c != "." && c != ".." && '/' !in c && |t| < PATH_MAX
    && o.stack + [c] in fs && fs[o.stack + [c]] == Link(Some(t))
  }

  predicate Absolute(t: string) {
    t != "" && t[0] == '/'
  }

  /** The path text with the link replaced by what it stands for: the link's text alone if that is absolute,
      and otherwise that text where the link is. */
  function Replaced(front: string, t: string, back: string): string {
    if Absolute(t) then t + back else front + "/" + t + back
  }

  /** What is left of `links` for the replaced path: one link is not needed any more, and none of those that the
      front needs if the front is gone. */
  function Remaining(fs: Tree, room: Room, front: string, t: string, links: nat): int {
    (if Absolute(t) && Resolve(fs, room, [], front, links).Resolved? then Resolve(fs, room, [], front, links).links
     else links) - 1
  }

  /** A link may be replaced by its text in the path text: unless a text gets too long on either way, resolution
      comes to the same end, error for error. */
  lemma LinkReplaced(fs: Tree, room: Room, front: string, c: Component, t: string, back: string, links: nat)
    requires Generous(room) && (back == "" || back[0] == '/') && LinkAt(fs, room, front, c, t, links)
    ensures Remaining(fs, room, front, t, links) >= 0
    ensures var o := Resolve(fs, room, [], front + "/" + c + back, links);
      var o' := Resolve(fs, room, [], Replaced(front, t, back), Remaining(fs, room, front, t, links));
      o == o' || o == Failed(TooLong) || o' == Failed(TooLong)
  {
    hide Resolve, Generous, Base, Overflows, Absolute;
    var o := Resolve(fs, room, [], front, links);
    assert (front + "/" + c + back) == front + ("/" + c + back);
    ThenBack(fs, room, [], front, "/" + c + back, links);
    LinkFollowed(fs, room, o.stack, c, t, back, o.links);
    if Absolute(t) {
      AbsoluteBase(o.stack, t);
    } else {
      RelativeBase(o.stack, t);
      RelativeText(fs, room, front, t, back, links);
    }
  }

  lemma AbsoluteBase(stack: seq<Component>, t: string)
    requires Absolute(t)
    ensures Base(stack, t) == []
  {
  }

  lemma RelativeBase(stack: seq<Component>, t: string)
    requires !Absolute(t)
    ensures Base(stack, t) == stack
  {
  }

  /** A relative text where the link is, resolved with one link less. */
  lemma RelativeText(fs: Tree, room: Room, front: string, t: string, back: string, links: nat)
    requires Generous(room) && (back == "" || back[0] == '/')
    requires var o := Resolve(fs, room, [], front, links); o.Resolved? && 0 < o.links <= links
    ensures var o, o' := Resolve(fs, room, [], front, links), Resolve(fs, room, [], front + "/" + t + back, links - 1);
      o' == Resolve(fs, room, o.stack, t + back, o.links - 1) || o' == Failed(TooLong)
  {
    hide Resolve, Generous, Overflows;
    var o := Resolve(fs, room, [], front, links);
    FewerLinks(fs, room, [], front, links, 1);
    assert (front + "/" + t + back) == front + ("/" + (t + back));
    ThenBack(fs, room, [], front, "/" + (t + back), links - 1);
    SeparatorFirst(fs, room, o.stack, t + back, o.links - 1);
  }

  lemma LinkFollowed(fs: Tree, room: Room, stack: seq<Component>, c: Component, t: string, back: string, links: nat)
    requires Generous(room) && (back == "" || back[0] == '/')
    requires c != "" && c != "." && c != ".." && '/' !in c
    requires stack + [c] in fs && fs[stack + [c]] == Link(Some(t)) && links > 0 && |t| < PATH_MAX
    ensures Resolve(fs, room, stack, "/" + c + back, links) ==
      if |t| + |back| < PATH_MAX then Resolve(fs, room, Base(stack, t), t + back, links - 1) else Failed(TooLong)
  {
    hide First, Rest, Generous, Room.Fit, Render, Base, Enter;
    FirstOfName(c, back);
    GenerousFits(room, |Render(stack + [c])|, |c|);
    var r := room.Fit(|Render(stack + [c])|, |c|).value;
    EnterIs(fs, room, stack, c, back, links);
    assert Resolve(fs, room, stack, "/" + c + back, links) == Enter(fs, room, stack, c, back, links);
    hide Resolve;
    RoomIrrelevant(fs, r, room, Base(stack, t), t + back, links - 1);
  }

  /** If no text can get too long, they come to the same end. */
  lemma LinkReplacedExactly(fs: Tree, n: nat, room: Room, front: string, c: Component, t: string, back: string,
      links: nat)
    requires Generous(room) && (back == "" || back[0] == '/') && LinkAt(fs, room, front, c, t, links)
    requires TargetsWithin(fs, n) && |front + "/" + c + back| + links * n < PATH_MAX
    ensures Remaining(fs, room, front, t, links) >= 0
    ensures Resolve(fs, room, [], front + "/" + c + back, links) ==
      Resolve(fs, room, [], Replaced(front, t, back), Remaining(fs, room, front, t, links))
  {
    hide Resolve, Generous, TargetsWithin, Replaced, Remaining, LinkAt;
    LinkReplaced(fs, room, front, c, t, back, links);
    var m := Remaining(fs, room, front, t, links);
    ReplacedIsShort(fs, n, room, front, c, t, back, links);
    NeverTooLong(fs, n, room, [], front + "/" + c + back, links);
    NeverTooLong(fs, n, room, [], Replaced(front, t, back), m);
  }

  lemma ReplacedIsShort(fs: Tree, n: nat, room: Room, front: string, c: Component, t: string, back: string, links: nat)
    requires LinkAt(fs, room, front, c, t, links) && TargetsWithin(fs, n)
    requires |front + "/" + c + back| + links * n < PATH_MAX
    ensures var m := Remaining(fs, room, front, t, links);
      0 <= m < links && |Replaced(front, t, back)| + m * n < PATH_MAX
  {
    hide Resolve;
    var m := Remaining(fs, room, front, t, links);
    assert |t| <= n;
    OneLinkLess(links, n);
    if m < links - 1 { Times(m, links - 1, n); }
  }

  lemma Times(a: nat, b: nat, n: nat)
    requires a <= b
    ensures a * n <= b * n
  {
  }

  /** A separator in front of a text makes no difference. */
  lemma SeparatorFirst(fs: Tree, room: Room, stack: seq<Component>, s: string, links: nat)
    ensures Resolve(fs, room, stack, "/" + s, links) == Resolve(fs, room, stack, s, links)
  {
    FirstAfterSeparator(s);
    hide First, Rest, Enter;
  }

  lemma FirstAfterSeparator(s: string)
    ensures First("/" + s) == First(s) && Rest("/" + s) == Rest(s)
  {
    assert ("/" + s)[1..] == s;
    hide Span;
    assert Slashes("/" + s) == 1 + Slashes(s);
    assert ("/" + s)[1 + Slashes(s)..] == s[Slashes(s)..];
  }

  /** RealPath gives the same for a path with a link and for the path with the link replaced by its text, if it
      gives anything for both; and if no text can get too long, whenever it gives anything for the former. */
  lemma RealPathFollowsLinks(fs: Tree, n: nat, room: Room, front: string, c: Component, t: string, back: string)
    requires Generous(room) && (back == "" || back[0] == '/') && LinkAt(fs, room, front, c, t, MAX_LINKS)
    requires front == "" || front[0] == '/'
    ensures var q, q' := RealPathOf(fs, room, front + "/" + c + back), RealPathOf(fs, room, Replaced(front, t, back));
      && (q.Some? && q'.Some? ==> q == q')
      && (q.Some? && TargetsWithin(fs, n) && |front + "/" + c + back| + MAX_LINKS * n < PATH_MAX ==> q == q')
  {
    hide Resolve, Generous, TargetsWithin, Render, LinkAt, Replaced, Remaining;
    var s, s' := front + "/" + c + back, Replaced(front, t, back);
    LinkReplaced(fs, room, front, c, t, back, MAX_LINKS);
    StartsWithSlash(front, c + back);
    assert front + "/" + (c + back) == s;
    ReplacedStarts(front, t, back);
    var m := Remaining(fs, room, front, t, MAX_LINKS);
    FewEnough(fs, room, front, c, t, MAX_LINKS);
    if Resolve(fs, room, [], s', m).Resolved? { MoreLinks(fs, room, [], s', m, MAX_LINKS - m); }
    if Resolve(fs, room, [], s', m) == Failed(TooLong) { TooLongStays(fs, room, [], s', m, MAX_LINKS - m); }
    if TargetsWithin(fs, n) && |s| + MAX_LINKS * n < PATH_MAX {
      LinkReplacedExactly(fs, n, room, front, c, t, back, MAX_LINKS);
    }
  }

  lemma FewEnough(fs: Tree, room: Room, front: string, c: Component, t: string, links: nat)
    requires LinkAt(fs, room, front, c, t, links)
    ensures 0 <= Remaining(fs, room, front, t, links) < links
  {
    hide Resolve;
  }

  lemma ReplacedStarts(front: string, t: string, back: string)
    requires front == "" || front[0] == '/'
    ensures Replaced(front, t, back) != "" && Replaced(front, t, back)[0] == '/'
  {
    StartsWithSlash(front, t + back);
    assert front + "/" + (t + back) == front + "/" + t + back;
  }

  /** A text that gets too long does so with more links, too. */
  lemma {:induction false} TooLongStays(fs: Tree, room: Room, stack: seq<Component>, s: string, links: nat, k: nat)
    requires Resolve(fs, room, stack, s, links) == Failed(TooLong)
    ensures Resolve(fs, room, stack, s, links + k) == Failed(TooLong)
    decreases links, |s|, 0
  {
    var c, rest := First(s), Rest(s);
    hide First, Rest, Target, Enter;
    if c == "." {
      TooLongStays(fs, room, stack, rest, links, k);
    } else if c == ".." {
      TooLongStays(fs, room, Parent(stack), rest, links, k);
    } else if c != "" {
      TooLongStaysEnter(fs, room, stack, c, rest, links, k);
    }
  }

  lemma {:induction false} TooLongStaysEnter(fs: Tree, room: Room, stack: seq<Component>, c: Component, rest: string,
      links: nat, k: nat)
    requires Enter(fs, room, stack, c, rest, links) == Failed(TooLong)
    ensures Enter(fs, room, stack, c, rest, links + k) == Failed(TooLong)
    decreases links, |rest|, 1
  {
    hide Resolve, Room.Fit, Render, Target, Base;
    var p, r := stack + [c], room.Fit(|Render(stack + [c])|, |c|).value;
    if !fs[p].Link? {
      TooLongStays(fs, r, p, rest, links, k);
    } else {
      var v := Target(fs[p].target.value);
      if |v| + |rest| < PATH_MAX {
        assert (links - 1) + k == links + k - 1;
        TooLongStays(fs, r, Base(stack, v), v + rest, links - 1, k);
      }
    }
  }

  lemma StartsWithSlash(front: string, r: string)
    requires front == "" || front[0] == '/'
    ensures front + "/" + r != "" && (front + "/" + r)[0] == '/'
  {
  }

  // ----- how many links -----

  /** Entry `names[0]` of the root is no link, and every later one is a link to the one before it. */
  predicate Chain(fs: Tree, names: seq<Component>) {
    && names != []
    && (forall i | 0 <= i < |names| :: Proper(names[i]) && [names[i]] in fs && |names[i]| < PATH_MAX - 1)
    && !fs[[names[0]]].Link?
    && (forall i | 0 < i < |names| :: fs[[names[i]]] == Link(Some(names[i - 1])))
  }

  lemma {:induction false} ChainResolves(fs: Tree, room: Room, names: seq<Component>, i: nat, s: string, links: nat)
    requires Chain(fs, names) && i < |names| && Ample(room, PATH_MAX - 1) && First(s) == names[i] && Rest(s) == ""
    ensures Resolve(fs, room, [], s, links) ==
      if i <= links then Resolved([names[0]], links - i) else Failed(TooManyLinks)
    decreases i
  {
    hide First, Rest, Ample, Room.Fit, Enter;
    var c := names[i];
    assert Resolve(fs, room, [], s, links) == Enter(fs, room, [], c, "", links);
    hide Resolve;
    NameIsShort(c);
    assert [] + [c] == [c];
    AmpleFits(room, |Render([c])|, |c|, PATH_MAX - 1);
    var r := room.Fit(|Render([c])|, |c|).value;
    if i == 0 {
      EnterIs(fs, room, [], c, "", links);
      NothingLeft(fs, r, [c], links);
    } else if links == 0 {
      NoLinksLeft(fs, room, c);
    } else {
      EnterIs(fs, room, [], c, "", links);
      NameReadsAsItself(names[i - 1]);
      assert names[i - 1] + "" == names[i - 1];
      ChainResolves(fs, r, names, i - 1, names[i - 1], links - 1);
    }
  }

  lemma NameIsShort(c: Component)
    requires Proper(c)
    ensures Render([c]) == "/" + c && Base([], c) == []
  {
    assert Join([]) == "";
    assert [c][..0] == [];
  }

  lemma NothingLeft(fs: Tree, room: Room, stack: seq<Component>, links: nat)
    ensures Resolve(fs, room, stack, "", links) == Resolved(stack, links)
  {
    assert First("") == "";
  }

  lemma NoLinksLeft(fs: Tree, room: Room, c: Component)
    requires room.Fit(|Render([c])|, |c|).Some? && [c] in fs && fs[[c]].Link?
    ensures Enter(fs, room, [], c, "", 0) == Failed(TooManyLinks)
  {
    assert [] + [c] == [c];
    hide Room.Fit, Render;
  }

  lemma NameReadsAsItself(c: Component)
    requires Proper(c)
    ensures First(c) == c && Rest(c) == ""
  {
    ReadsAs(c, 0, c, "");
  }

  /** A chain of links is followed to its end exactly if there are no more than 40 of them. */
  lemma FortyLinks(fs: Tree, room: Room, names: seq<Component>)
    requires Chain(fs, names) && Ample(room, PATH_MAX - 1)
    ensures RealPathOf(fs, room, "/" + names[|names| - 1]) ==
      if |names| - 1 <= 40 then Some("/" + names[0]) else None
  {
    hide Resolve, Ample;
    var c := names[|names| - 1];
    FirstOfName(c, "");
    assert "/" + c + "" == "/" + c;
    ChainResolves(fs, room, names, |names| - 1, "/" + c, MAX_LINKS);
    NameIsShort(names[0]);
  }
}
