/**
  RealPath against a plain walk over components, and what follows for paths used again.
*/
module PathWalk {
  import opened Wrappers
  import opened PathResolution
  import opened PathLaws

  /** Pathname resolution over whole components, without texts or buffers. */
  function Walk(fs: Tree, stack: seq<Component>, cs: seq<Component>, links: nat): Outcome
    decreases links, |cs|
  {
    if cs == [] then Resolved(stack, links)
    else if cs[0] == "." then Walk(fs, stack, cs[1..], links)
    else if cs[0] == ".." then Walk(fs, Parent(stack), cs[1..], links)
    else
      var p := stack + [cs[0]];
      if p !in fs then Failed(NotFound)
      else if !fs[p].Link? then Walk(fs, p, cs[1..], links)
      else if links == 0 then Failed(TooManyLinks)
      else if fs[p].target.None? then Failed(Unreadable)
      else
        var v := Target(fs[p].target.value);
        Walk(fs, Base(stack, v), Split(v) + cs[1..], links - 1)
  }

  /** The resolver gives up for lack of room or because a text gets too long; otherwise it does what the
      walk does, error for error. */
  lemma {:induction false} ResolveWalks(fs: Tree, room: Room, stack: seq<Component>, s: string, links: nat)
    ensures var o := Resolve(fs, room, stack, s, links);
      o == Walk(fs, stack, Split(s), links) || o == Failed(NoRoom) || o == Failed(TooLong)
    decreases links, |s|, 0
  {
    var c, rest := First(s), Rest(s);
    SplitIs(s);
    hide First, Rest, Split, Target;
    if c == "" {
    } else if c == "." {
      ResolveWalks(fs, room, stack, rest, links);
    } else if c == ".." {
      ResolveWalks(fs, room, Parent(stack), rest, links);
    } else {
      EnterWalks(fs, room, stack, c, rest, links);
    }
  }

  lemma {:induction false} EnterWalks(fs: Tree, room: Room, stack: seq<Component>, c: Component, rest: string,
      links: nat)
    requires c != "." && c != ".." && (rest == "" || rest[0] == '/')
    ensures var o := Enter(fs, room, stack, c, rest, links);
      o == Walk(fs, stack, [c] + Split(rest), links) || o == Failed(NoRoom) || o == Failed(TooLong)
    decreases links, |rest|, 1
  {
    hide First, Rest, Split, Target, Resolve;
    var p, fit := stack + [c], room.Fit(|Render(stack + [c])|, |c|);
    assert ([c] + Split(rest))[1..] == Split(rest);
    if fit.Some? && p in fs {
      if !fs[p].Link? {
        ResolveWalks(fs, fit.value, p, rest, links);
      } else if links > 0 && fs[p].target.Some? {
        var v := Target(fs[p].target.value);
        if |v| + |rest| < PATH_MAX {
          SplitAppend(v, rest);
          ResolveWalks(fs, fit.value, Base(stack, v), v + rest, links - 1);
        }
      }
    }
  }

  // ----- room -----

  /** The buffer never refuses a path of up to `n` bytes. */
  ghost predicate Ample(room: Room, n: nat) {
    if room.Fixed? then n < PATH_MAX else forall size: nat :: room.grants(size)
  }

  lemma AmpleFits(room: Room, end: nat, k: nat, n: nat)
    requires Ample(room, n) && end <= n
    ensures room.Fit(end, k).Some? && Ample(room.Fit(end, k).value, n)
  {
  }

  /** A buffer that grows when asked never makes resolution fail. */
  lemma {:induction false} NeverNoRoom(fs: Tree, room: Room, stack: seq<Component>, s: string, links: nat)
    requires room.Growing? && forall size: nat :: room.grants(size)
    ensures Resolve(fs, room, stack, s, links) != Failed(NoRoom)
    decreases links, |s|
  {
    var c, rest := First(s), Rest(s);
    hide First, Rest, Target;
    if c == "" {
    } else if c == "." {
      NeverNoRoom(fs, room, stack, rest, links);
    } else if c == ".." {
      NeverNoRoom(fs, room, Parent(stack), rest, links);
    } else {
      var p, room' := stack + [c], room.Fit(|Render(stack + [c])|, |c|).value;
      if p in fs {
        if !fs[p].Link? {
          NeverNoRoom(fs, room', p, rest, links);
        } else if links > 0 && fs[p].target.Some? {
          var v := Target(fs[p].target.value);
          if |v| + |rest| < PATH_MAX { NeverNoRoom(fs, room', Base(stack, v), v + rest, links - 1); }
        }
      }
    }
  }

  /** What comes out of the caller's buffer fits it. */
  lemma {:induction false} FixedFits(fs: Tree, stack: seq<Component>, s: string, links: nat)
    requires |Render(stack)| < PATH_MAX
    ensures var o := Resolve(fs, Fixed, stack, s, links); o.Resolved? ==> |Render(o.stack)| < PATH_MAX
    decreases links, |s|, 0
  {
    var c, rest := First(s), Rest(s);
    hide First, Rest, Target;
    if c == "" {
    } else if c == "." {
      FixedFits(fs, stack, rest, links);
    } else if c == ".." {
      ParentIsShorter(stack);
      FixedFits(fs, Parent(stack), rest, links);
    } else {
      FixedFitsEnter(fs, stack, c, rest, links);
    }
  }

  lemma {:induction false} FixedFitsEnter(fs: Tree, stack: seq<Component>, c: Component, rest: string, links: nat)
    requires |Render(stack)| < PATH_MAX
    ensures var o := Enter(fs, Fixed, stack, c, rest, links); o.Resolved? ==> |Render(o.stack)| < PATH_MAX
    decreases links, |rest|, 1
  {
    hide Resolve, Render, Target, Enter, Room.Fit, Base;
    FixedRoom(fs, stack, c, rest, links);
    if |Render(stack + [c])| < PATH_MAX {
      EnterIs(fs, Fixed, stack, c, rest, links);
      var p := stack + [c];
      if p in fs && !fs[p].Link? {
        FixedFits(fs, p, rest, links);
      } else if p in fs && Followed(fs[p], rest, links) {
        var v := Target(fs[p].target.value);
        BaseFits(stack, v);
        FixedFits(fs, Base(stack, v), v + rest, links - 1);
      }
    }
  }

  lemma FixedRoom(fs: Tree, stack: seq<Component>, c: Component, rest: string, links: nat)
    ensures Fixed.Fit(|Render(stack + [c])|, |c|) == if |Render(stack + [c])| < PATH_MAX then Some(Fixed) else None
    ensures |Render(stack + [c])| >= PATH_MAX ==> Enter(fs, Fixed, stack, c, rest, links) == Failed(NoRoom)
  {
    hide Resolve, Render, Target;
  }

  lemma BaseFits(stack: seq<Component>, v: string)
    requires |Render(stack)| < PATH_MAX
    ensures |Render(Base(stack, v))| < PATH_MAX
  {
  }

  lemma ParentIsShorter(p: seq<Component>)
    ensures |Render(Parent(p))| <= |Render(p)|
  {
  }

  // ----- resolving what is resolved -----

  lemma {:induction false} JoinGrows(p: seq<Component>, n: nat)
    requires n <= |p|
    ensures |Join(p[..n])| <= |Join(p)|
  {
    JoinAppend(p[..n], p[n..]);
    assert p[..n] + p[n..] == p;
  }

  /** The next step along the text of a settled path. */
  lemma SettledStep(fs: Tree, room: Room, p: seq<Component>, n: nat, back: string, links: nat)
    requires Settled(fs, p) && n < |p| && Ample(room, |Render(p)|) && (back == "" || back[0] == '/')
    ensures var room' := room.Fit(|Join(p[..n + 1])|, |p[n]|);
      && room'.Some? && Ample(room'.value, |Render(p)|)
      && Resolve(fs, room, p[..n], Join(p[n..]) + back, links) ==
        Resolve(fs, room'.value, p[..n + 1], Join(p[n + 1..]) + back, links)
  {
    hide Resolve, Ample, Settled;
    SettledIsProper(fs, p);
    NextName(p, n, back);
    assert p[..n] + [p[n]] == p[..n + 1];
    JoinGrows(p, n + 1);
    SettledNode(fs, p, n + 1);
    AmpleFits(room, |Join(p[..n + 1])|, |p[n]|, |Join(p)|);
    DirectoryStep(fs, room, p[..n], Join(p[n..]) + back, links);
  }

  lemma SettledIsProper(fs: Tree, p: seq<Component>)
    requires Settled(fs, p)
    ensures AllProper(p)
  {
  }

  lemma SettledNode(fs: Tree, p: seq<Component>, n: nat)
    requires Settled(fs, p) && 0 < n <= |p|
    ensures p[..n] in fs && !fs[p[..n]].Link? && Proper(p[n - 1])
  {
  }

  /** The text of a path from component `n` on begins with that component. */
  lemma NextName(p: seq<Component>, n: nat, back: string)
    requires AllProper(p) && n < |p| && (back == "" || back[0] == '/')
    ensures First(Join(p[n..]) + back) == p[n] && Rest(Join(p[n..]) + back) == Join(p[n + 1..]) + back
  {
    hide First, Rest, Join;
    var q := p[n..];
    JoinStep(q);
    assert q[0] == p[n] && q[1..] == p[n + 1..] && Proper(p[n]);
    JoinSplits(q[1..]);
    var rest := Join(q[1..]) + back;
    assert Join(q) + back == "/" + p[n] + rest;
    FirstOfName(p[n], rest);
  }

  /** One step down to an entry that is no link. */
  lemma DirectoryStep(fs: Tree, room: Room, stack: seq<Component>, s: string, links: nat)
    requires Proper(First(s))
    requires var p := stack + [First(s)]; p in fs && !fs[p].Link? && room.Fit(|Render(p)|, |First(s)|).Some?
    ensures var p := stack + [First(s)];
      Resolve(fs, room, stack, s, links) == Resolve(fs, room.Fit(|Render(p)|, |First(s)|).value, p, Rest(s), links)
  {
    hide First, Rest, Render, Room.Fit;
  }

  /** In room enough the text of a settled path resolves to that path. */
  lemma {:induction false} ReplayText(fs: Tree, room: Room, p: seq<Component>, n: nat, links: nat)
    requires Settled(fs, p) && n <= |p| && Ample(room, |Render(p)|)
    ensures Resolve(fs, room, p[..n], Join(p[n..]), links) == Resolved(p, links)
    decreases |p| - n
  {
    if n == |p| {
      NoComponents();
      assert p[..n] == p && p[n..] == [];
      assert First("") == "";
    } else {
      hide Resolve, Ample, Settled, Join;
      SettledStep(fs, room, p, n, "", links);
      assert Join(p[n..]) + "" == Join(p[n..]) && Join(p[n + 1..]) + "" == Join(p[n + 1..]);
      ReplayText(fs, room.Fit(|Join(p[..n + 1])|, |p[n]|).value, p, n + 1, links);
    }
  }

  /** RealPath is idempotent: what it returned it returns again, exactly if it has the room for it. */
  lemma Idempotent(fs: Tree, room: Room, name: string, room': Room)
    requires Readable(fs) && NUL !in name && RealPathOf(fs, room, name).Some?
    ensures var q := RealPathOf(fs, room, name).value;
      && (Ample(room', |q|) ==> RealPathOf(fs, room', q) == Some(q))
      && (room == Fixed ==> RealPathOf(fs, Fixed, q) == Some(q))
      && (RealPathOf(fs, Fixed, q) == Some(q) <==> |q| < 4096)
  {
    ResolvedIsSettled(fs, room, [], name, MAX_LINKS);
    var p := Resolve(fs, room, [], name, MAX_LINKS).stack;
    var q := Render(p);
    RenderIsCanonical(p);
    if Ample(room', |q|) { TextOfSettled(fs, room', p); }
    if |q| < PATH_MAX { TextOfSettled(fs, Fixed, p); }
    if room == Fixed { FixedFits(fs, [], name, MAX_LINKS); }
    if RealPathOf(fs, Fixed, q) == Some(q) { FixedFits(fs, [], q, MAX_LINKS); }
  }

  lemma TextOfSettled(fs: Tree, room: Room, p: seq<Component>)
    requires Settled(fs, p) && Ample(room, |Render(p)|)
    ensures Resolve(fs, room, [], Render(p), MAX_LINKS) == Resolved(p, MAX_LINKS)
  {
    if p == [] {
      assert First("/") == "";
    } else {
      ReplayText(fs, room, p, 0, MAX_LINKS);
      assert p[..0] == [] && p[0..] == p;
    }
  }

  // ----- paths in parts -----

  /** The buffer grows whenever it is asked to. */
  ghost predicate Generous(room: Room) {
    room.Growing? && forall size: nat :: room.grants(size)
  }

  lemma GenerousFits(room: Room, end: nat, k: nat)
    requires Generous(room)
    ensures room.Fit(end, k).Some? && Generous(room.Fit(end, k).value)
  {
  }

  /** How big a buffer was to begin with does not matter if it grows. */
  lemma {:induction false} RoomIrrelevant(fs: Tree, room: Room, room': Room, stack: seq<Component>, s: string,
      links: nat)
    requires Generous(room) && Generous(room')
    ensures Resolve(fs, room, stack, s, links) == Resolve(fs, room', stack, s, links)
    decreases links, |s|
  {
    var c, rest := First(s), Rest(s);
    hide First, Rest, Target, Generous;
    if c == "" {
    } else if c == "." {
      RoomIrrelevant(fs, room, room', stack, rest, links);
    } else if c == ".." {
      RoomIrrelevant(fs, room, room', Parent(stack), rest, links);
    } else {
      var p, end := stack + [c], |Render(stack + [c])|;
      GenerousFits(room, end, |c|);
      GenerousFits(room', end, |c|);
      var r, r' := room.Fit(end, |c|).value, room'.Fit(end, |c|).value;
      hide Room.Fit, Render;
      if p in fs {
        if !fs[p].Link? {
          RoomIrrelevant(fs, r, r', p, rest, links);
        } else if links > 0 && fs[p].target.Some? {
          var v := Target(fs[p].target.value);
          if |v| + |rest| < PATH_MAX { RoomIrrelevant(fs, r, r', Base(stack, v), v + rest, links - 1); }
        }
      }
    }
  }

  /** If a path resolves, so does its front part, and the back part is resolved from there with the links
      that are left. */
  lemma {:induction false} FrontThenBack(fs: Tree, room: Room, stack: seq<Component>, s: string, back: string,
      links: nat)
    requires Generous(room) && (back == "" || back[0] == '/')
    requires Resolve(fs, room, stack, s + back, links).Resolved?
    ensures var o := Resolve(fs, room, stack, s, links);
      o.Resolved? && o.links <= links
        && Resolve(fs, room, stack, s + back, links) == Resolve(fs, room, o.stack, back, o.links)
    decreases links, |s|, 0
  {
    var c, rest := First(s), Rest(s);
    if c == "" {
      NothingFirst(s, back);
    } else {
      FirstOfAppend(s, back);
      hide First, Rest;
      if c == "." {
        FrontThenBack(fs, room, stack, rest, back, links);
      } else if c == ".." {
        FrontThenBack(fs, room, Parent(stack), rest, back, links);
      } else {
        FrontThenBackEnter(fs, room, stack, c, rest, back, links);
      }
    }
  }

  lemma {:induction false} FrontThenBackEnter(fs: Tree, room: Room, stack: seq<Component>, c: Component,
      rest: string, back: string, links: nat)
    requires Generous(room) && (back == "" || back[0] == '/')
    requires Enter(fs, room, stack, c, rest + back, links).Resolved?
    ensures var o := Enter(fs, room, stack, c, rest, links);
      o.Resolved? && o.links <= links
        && Enter(fs, room, stack, c, rest + back, links) == Resolve(fs, room, o.stack, back, o.links)
    decreases links, |rest|, 2
  {
    hide Resolve, Generous, Room.Fit, Render, Target, Enter, Base;
    var p, end := stack + [c], |Render(stack + [c])|;
    GenerousFits(room, end, |c|);
    var r := room.Fit(end, |c|).value;
    EnterIs(fs, room, stack, c, rest + back, links);
    EnterIs(fs, room, stack, c, rest, links);
    if !fs[p].Link? {
      FrontThenBackIn(fs, room, r, p, rest, back, links);
    } else {
      var v := Target(fs[p].target.value);
      assert v + (rest + back) == (v + rest) + back;
      FrontThenBackIn(fs, room, r, Base(stack, v), v + rest, back, links - 1);
    }
  }

  lemma {:induction false} FrontThenBackIn(fs: Tree, room: Room, room': Room, stack: seq<Component>, s: string,
      back: string, links: nat)
    requires Generous(room) && Generous(room') && (back == "" || back[0] == '/')
    requires Resolve(fs, room', stack, s + back, links).Resolved?
    ensures var o := Resolve(fs, room', stack, s, links);
      o.Resolved? && o.links <= links
        && Resolve(fs, room', stack, s + back, links) == Resolve(fs, room, o.stack, back, o.links)
    decreases links, |s|, 1
  {
    hide Resolve, Generous;
    FrontThenBack(fs, room', stack, s, back, links);
    var o := Resolve(fs, room', stack, s, links);
    RoomIrrelevant(fs, room', room, o.stack, back, o.links);
  }

  /** The link can be read, may be followed, and its text fits in front of what is left. */
  predicate Followed(node: Node, rest: string, links: nat)
    requires node.Link?
  {
    links > 0 && node.target.Some? && |Target(node.target.value)| + |rest| < PATH_MAX
  }

  /** When entering a component succeeds, and what it leads to. */
  lemma EnterIs(fs: Tree, room: Room, stack: seq<Component>, c: Component, rest: string, links: nat)
    requires room.Fit(|Render(stack + [c])|, |c|).Some?
    ensures var o, p, r := Enter(fs, room, stack, c, rest, links), stack + [c],
      room.Fit(|Render(stack + [c])|, |c|).value;
      && (o.Resolved? ==> p in fs && (fs[p].Link? ==> Followed(fs[p], rest, links)))
      && (p in fs && !fs[p].Link? ==> o == Resolve(fs, r, p, rest, links))
      && (p in fs && fs[p].Link? && Followed(fs[p], rest, links) ==>
        var v := Target(fs[p].target.value);
        o == Resolve(fs, r, Base(stack, v), v + rest, links - 1))
      && (p in fs && fs[p].Link? && links > 0 && fs[p].target.Some? && !Followed(fs[p], rest, links) ==>
        o == Failed(TooLong))
  {
    hide Resolve, Room.Fit, Render, Target;
  }

  /** More links to follow change nothing of a path that resolves. */
  lemma {:induction false} MoreLinks(fs: Tree, room: Room, stack: seq<Component>, s: string, links: nat, k: nat)
    requires Resolve(fs, room, stack, s, links).Resolved?
    ensures var o := Resolve(fs, room, stack, s, links);
        Resolve(fs, room, stack, s, links + k) == Resolved(o.stack, o.links + k)
    decreases links, |s|, 0
  {
    var c, rest := First(s), Rest(s);
    hide First, Rest, Target;
    if c == "" {
    } else if c == "." {
      MoreLinks(fs, room, stack, rest, links, k);
    } else if c == ".." {
      MoreLinks(fs, room, Parent(stack), rest, links, k);
    } else {
      MoreLinksEnter(fs, room, stack, c, rest, links, k);
    }
  }

  lemma {:induction false} MoreLinksEnter(fs: Tree, room: Room, stack: seq<Component>, c: Component, rest: string,
      links: nat, k: nat)
    requires Enter(fs, room, stack, c, rest, links).Resolved?
    ensures var o := Enter(fs, room, stack, c, rest, links);
      Enter(fs, room, stack, c, rest, links + k) == Resolved(o.stack, o.links + k)
    decreases links, |rest|, 1
  {
    hide Resolve, Room.Fit, Render, Target, Enter, Base;
    FitToEnter(fs, room, stack, c, rest, links);
    var p, r := stack + [c], room.Fit(|Render(stack + [c])|, |c|).value;
    EnterIs(fs, room, stack, c, rest, links);
    EnterIs(fs, room, stack, c, rest, links + k);
    if !fs[p].Link? {
      MoreLinks(fs, r, p, rest, links, k);
    } else {
      var v := Target(fs[p].target.value);
      assert (links - 1) + k == links + k - 1;
      MoreLinks(fs, r, Base(stack, v), v + rest, links - 1, k);
    }
  }

  lemma FitToEnter(fs: Tree, room: Room, stack: seq<Component>, c: Component, rest: string, links: nat)
    requires Enter(fs, room, stack, c, rest, links).Resolved?
    ensures room.Fit(|Render(stack + [c])|, |c|).Some?
  {
    hide Resolve;
  }

  /** A settled path is passed straight through, whatever comes after it. */
  lemma {:induction false} PassThrough(fs: Tree, room: Room, p: seq<Component>, n: nat, back: string, links: nat)
    requires Settled(fs, p) && n <= |p| && Generous(room) && (back == "" || back[0] == '/')
    ensures Resolve(fs, room, p[..n], Join(p[n..]) + back, links) == Resolve(fs, room, p, back, links)
    decreases |p| - n
  {
    hide Resolve, Settled;
    if n == |p| {
      NoComponents();
      assert p[..n] == p && p[n..] == [] && "" + back == back;
    } else {
      assert Ample(room, |Render(p)|);
      SettledStep(fs, room, p, n, back, links);
      GenerousFits(room, |Join(p[..n + 1])|, |p[n]|);
      hide Join;
      var r := room.Fit(|Join(p[..n + 1])|, |p[n]|).value;
      PassThrough(fs, r, p, n + 1, back, links);
      RoomIrrelevant(fs, r, room, p, back, links);
    }
  }

  lemma RootIsNothing(fs: Tree, room: Room, back: string, links: nat)
    requires back == "" || back[0] == '/'
    ensures Resolve(fs, room, [], "/" + back, links) == Resolve(fs, room, [], back, links)
  {
    hide First, Rest, Enter;
    SeparatorIsNothing();
    NothingFirst("/", back);
  }

  lemma SeparatorIsNothing()
    ensures First("/") == ""
  {
  }

  /** The front part of a path may be replaced by what RealPath makes of it: if the whole path resolves,
      then so does its front part, and the path with the front part replaced leads to the same place. */
  lemma PrefixReplaced(fs: Tree, room: Room, front: string, back: string)
    requires Readable(fs) && NUL !in front && front != "" && back != "" && back[0] == '/'
    requires Generous(room) && RealPathOf(fs, room, front + back).Some?
    ensures var q := RealPathOf(fs, room, front);
      q.Some? && RealPathOf(fs, room, q.value + back) == RealPathOf(fs, room, front + back)
  {
    hide Resolve, Settled, Canonical, Render, Generous, Readable;
    assert (front + back)[0] == front[0];
    FrontThenBack(fs, room, [], front, back, MAX_LINKS);
    var o := Resolve(fs, room, [], front, MAX_LINKS);
    var p := o.stack;
    assert Settled(fs, []) by { RootIsSettled(fs); }
    ResolvedIsSettled(fs, room, [], front, MAX_LINKS);
    MoreLinks(fs, room, p, back, o.links, MAX_LINKS - o.links);
    SettledFront(fs, room, p, back);
    StartsAtRoot(fs, p, back);
  }

  lemma StartsAtRoot(fs: Tree, p: seq<Component>, back: string)
    requires Settled(fs, p)
    ensures (Render(p) + back)[0] == '/'
  {
    RenderIsCanonical(p);
    assert (Render(p) + back)[0] == Render(p)[0];
  }

  lemma SettledFront(fs: Tree, room: Room, p: seq<Component>, back: string)
    requires Settled(fs, p) && Generous(room) && (back == "" || back[0] == '/')
    ensures Resolve(fs, room, [], Render(p) + back, MAX_LINKS) == Resolve(fs, room, p, back, MAX_LINKS)
  {
    if p == [] {
      RootIsNothing(fs, room, back, MAX_LINKS);
    } else {
      PassThrough(fs, room, p, 0, back, MAX_LINKS);
      assert p[..0] == [] && p[0..] == p;
    }
    hide Resolve, Settled, Join;
  }

  // ----- ".." and files -----

  /** Walking one path and then another is walking both. */
  lemma {:induction false} WalkAppend(fs: Tree, stack: seq<Component>, xs: seq<Component>, ys: seq<Component>,
      links: nat)
    ensures Walk(fs, stack, xs + ys, links) ==
      match Walk(fs, stack, xs, links)
      case Resolved(p, n) => Walk(fs, p, ys, n)
      case Failed(e) => Failed(e)
    decreases links, |xs|
  {
    hide Split, Target;
    if xs == [] {
      assert xs + ys == ys;
    } else {
      assert (xs + ys)[1..] == xs[1..] + ys && (xs + ys)[0] == xs[0];
      var p := stack + [xs[0]];
      if xs[0] == "." {
        WalkAppend(fs, stack, xs[1..], ys, links);
      } else if xs[0] == ".." {
        WalkAppend(fs, Parent(stack), xs[1..], ys, links);
      } else if p in fs {
        if !fs[p].Link? {
          WalkAppend(fs, p, xs[1..], ys, links);
        } else if links > 0 && fs[p].target.Some? {
          var v := Target(fs[p].target.value);
          assert Split(v) + (xs[1..] + ys) == (Split(v) + xs[1..]) + ys;
          WalkAppend(fs, Base(stack, v), Split(v) + xs[1..], ys, links - 1);
        }
      }
    }
  }

  /** On the way `s` leads a link is met whose text, what is left of `s` after it and `extra` bytes more are
      together too long. */
  predicate Overflows(fs: Tree, stack: seq<Component>, s: string, links: nat, extra: nat)
    decreases links, |s|, 0
  {
    var c, rest := First(s), Rest(s);
    if c == "" then false
    else if c == "." then Overflows(fs, stack, rest, links, extra)
    else if c == ".." then Overflows(fs, Parent(stack), rest, links, extra)
    else OverflowsAt(fs, stack, c, rest, links, extra)
  }

  predicate OverflowsAt(fs: Tree, stack: seq<Component>, c: Component, rest: string, links: nat, extra: nat)
    decreases links, |rest|, 1
  {
    var p := stack + [c];
    if p !in fs then false
    else if !fs[p].Link? then Overflows(fs, p, rest, links, extra)
    else if links == 0 || fs[p].target.None? then false
    else
      var v := Target(fs[p].target.value);
      |v| + |rest| + extra >= PATH_MAX || Overflows(fs, Base(stack, v), v + rest, links - 1, extra)
  }

  /** If a path resolves, a longer one is resolved on from there, exactly unless the additional text makes a
      text on the way too long. */
  lemma {:induction false} ThenBack(fs: Tree, room: Room, stack: seq<Component>, s: string, back: string, links: nat)
    requires Generous(room) && (back == "" || back[0] == '/')
    requires Resolve(fs, room, stack, s, links).Resolved?
    ensures var o := Resolve(fs, room, stack, s, links);
      Resolve(fs, room, stack, s + back, links) ==
        if Overflows(fs, stack, s, links, |back|) then Failed(TooLong) else Resolve(fs, room, o.stack, back, o.links)
    decreases links, |s|, 0
  {
    var c, rest := First(s), Rest(s);
    if c == "" {
      NothingFirst(s, back);
    } else {
      FirstOfAppend(s, back);
      hide First, Rest;
      if c == "." {
        ThenBack(fs, room, stack, rest, back, links);
      } else if c == ".." {
        ThenBack(fs, room, Parent(stack), rest, back, links);
      } else {
        ThenBackEnter(fs, room, stack, c, rest, back, links);
      }
    }
  }

  lemma {:induction false} ThenBackEnter(fs: Tree, room: Room, stack: seq<Component>, c: Component, rest: string,
      back: string, links: nat)
    requires Generous(room) && (back == "" || back[0] == '/')
    requires Enter(fs, room, stack, c, rest, links).Resolved?
    ensures var o := Enter(fs, room, stack, c, rest, links);
      Enter(fs, room, stack, c, rest + back, links) ==
        if OverflowsAt(fs, stack, c, rest, links, |back|) then Failed(TooLong)
        else Resolve(fs, room, o.stack, back, o.links)
    decreases links, |rest|, 2
  {
    hide Resolve, Generous, Room.Fit, Render, Target, Enter, Base, Overflows;
    var p, end := stack + [c], |Render(stack + [c])|;
    GenerousFits(room, end, |c|);
    var r := room.Fit(end, |c|).value;
    EnterIs(fs, room, stack, c, rest + back, links);
    EnterIs(fs, room, stack, c, rest, links);
    if !fs[p].Link? {
      ThenBackIn(fs, room, r, p, rest, back, links);
    } else {
      var v := Target(fs[p].target.value);
      assert v + (rest + back) == (v + rest) + back;
      ThenBackIn(fs, room, r, Base(stack, v), v + rest, back, links - 1);
    }
  }

  lemma {:induction false} ThenBackIn(fs: Tree, room: Room, room': Room, stack: seq<Component>, s: string,
      back: string, links: nat)
    requires Generous(room) && Generous(room') && (back == "" || back[0] == '/')
    requires Resolve(fs, room', stack, s, links).Resolved?
    ensures var o := Resolve(fs, room', stack, s, links);
      Resolve(fs, room', stack, s + back, links) ==
        if Overflows(fs, stack, s, links, |back|) then Failed(TooLong) else Resolve(fs, room, o.stack, back, o.links)
    decreases links, |s|, 1
  {
    hide Resolve, Generous, Overflows;
    ThenBack(fs, room', stack, s, back, links);
    var o := Resolve(fs, room', stack, s, links);
    RoomIrrelevant(fs, room', room, o.stack, back, o.links);
  }

  /** ".." is taken as text: after a path that resolves it leads to the parent of where that path leads,
      whatever kind of node is there, exactly unless the three bytes more make a text on the way too long. */
  lemma DotDotIsLexical(fs: Tree, room: Room, front: string)
    requires Generous(room) && front != "" && RealPathOf(fs, room, front).Some?
    ensures var p := Resolve(fs, room, [], front, MAX_LINKS).stack;
      && RealPathOf(fs, room, front) == Some(Render(p))
      && RealPathOf(fs, room, front + "/..") ==
        if Overflows(fs, [], front, MAX_LINKS, 3) then None else Some(Render(Parent(p)))
  {
    var o := Resolve(fs, room, [], front, MAX_LINKS);
    assert (front + "/..")[0] == front[0];
    DotDotAlone(fs, room, o.stack, o.links);
    hide Resolve, Render, Generous, Overflows;
    ThenBack(fs, room, [], front, "/..", MAX_LINKS);
  }

  lemma DotDotAlone(fs: Tree, room: Room, stack: seq<Component>, links: nat)
    ensures Resolve(fs, room, stack, "/..", links) == Resolved(Parent(stack), links)
  {
    FirstOfName("..", "");
    assert "/" + ".." + "" == "/..";
    assert First("") == "";
    hide First, Rest, Enter;
  }

  predicate IsDirectory(fs: Tree, p: seq<Component>) {
    p == [] || (p in fs && fs[p].Directory?)
  }

  /** The components of a path text as section 4.13 of POSIX.1-2017 has them: a separator after the last one
      counts as a final ".". */
  function Dotted(s: string): seq<Component> {
    if s != "" && s[|s| - 1] == '/' && Split(s) != [] then Split(s) + ["."] else Split(s)
  }

  /** What is left to walk once a link with text `v` was met before `rest`. */
  function Expanded(v: string, rest: seq<Component>): seq<Component> {
    if rest == [] then Dotted(v) else Split(v) + rest
  }

  /** To the plain walk a final "." makes no difference. */
  lemma ExpandedWalk(fs: Tree, stack: seq<Component>, v: string, rest: seq<Component>, links: nat)
    ensures Walk(fs, stack, Expanded(v, rest), links) == Walk(fs, stack, Split(v) + rest, links)
  {
    hide Split;
    assert rest == [] ==> Split(v) + rest == Split(v);
    WalkAppend(fs, stack, Split(v), ["."], links);
    forall p, n: nat ensures Walk(fs, p, ["."], n) == Resolved(p, n) { assert ["."][1..] == []; }
    hide Walk;
  }

  /** The walk section 4.13 of POSIX.1-2017 asks for: while components are left it must stand on a
      directory. */
  function StrictWalk(fs: Tree, stack: seq<Component>, cs: seq<Component>, links: nat): Outcome
    decreases links, |cs|
  {
    if cs == [] then Resolved(stack, links)
    else if !IsDirectory(fs, stack) then Failed(NotDirectory)
    else if cs[0] == "." then StrictWalk(fs, stack, cs[1..], links)
    else if cs[0] == ".." then StrictWalk(fs, Parent(stack), cs[1..], links)
    else
      var p := stack + [cs[0]];
      if p !in fs then Failed(NotFound)
      else if !fs[p].Link? then StrictWalk(fs, p, cs[1..], links)
      else if links == 0 then Failed(TooManyLinks)
      else if fs[p].target.None? then Failed(Unreadable)
      else
        var v := Target(fs[p].target.value);
        StrictWalk(fs, Base(stack, v), Expanded(v, cs[1..]), links - 1)
  }

  /** The plain walk meets "." or ".." while it stands on something that is no directory. */
  predicate DotsAfterFile(fs: Tree, stack: seq<Component>, cs: seq<Component>, links: nat)
    decreases links, |cs|
  {
    if cs == [] then false
    else if cs[0] == "." then !IsDirectory(fs, stack) || DotsAfterFile(fs, stack, cs[1..], links)
    else if cs[0] == ".." then !IsDirectory(fs, stack) || DotsAfterFile(fs, Parent(stack), cs[1..], links)
    else
      var p := stack + [cs[0]];
      if p !in fs then false
      else if !fs[p].Link? then DotsAfterFile(fs, p, cs[1..], links)
      else if links == 0 || fs[p].target.None? then false
      else
        var v := Target(fs[p].target.value);
        DotsAfterFile(fs, Base(stack, v), Expanded(v, cs[1..]), links - 1)
  }

  /** Entries lie in directories. */
  predicate Nested(fs: Tree) {
    forall p | p in fs && p != [] :: IsDirectory(fs, Parent(p))
  }

  /** The strict walk succeeds where the plain one does without meeting "." or ".." after something that is no
      directory, and with the same result. */
  predicate Agree(fs: Tree, stack: seq<Component>, cs: seq<Component>, links: nat) {
    var o, o' := Walk(fs, stack, cs, links), StrictWalk(fs, stack, cs, links);
    && (o'.Resolved? <==> o.Resolved? && !DotsAfterFile(fs, stack, cs, links))
    && (o'.Resolved? ==> o' == o)
  }

  lemma DotsAgree(fs: Tree, stack: seq<Component>, cs: seq<Component>, links: nat)
    requires cs != [] && (cs[0] == "." || cs[0] == "..")
    requires Agree(fs, if cs[0] == "." then stack else Parent(stack), cs[1..], links)
    ensures Agree(fs, stack, cs, links)
  {
    hide Split, Target, Expanded, IsDirectory;
  }

  lemma EntryAgrees(fs: Tree, stack: seq<Component>, cs: seq<Component>, links: nat)
    requires cs != [] && cs[0] != "." && cs[0] != ".." && stack + [cs[0]] in fs && !fs[stack + [cs[0]]].Link?
    requires IsDirectory(fs, stack) && Agree(fs, stack + [cs[0]], cs[1..], links)
    ensures Agree(fs, stack, cs, links)
  {
    hide Split, Target, Expanded, IsDirectory;
  }

  lemma LinkAgrees(fs: Tree, stack: seq<Component>, cs: seq<Component>, links: nat)
    requires cs != [] && cs[0] != "." && cs[0] != ".." && stack + [cs[0]] in fs
    requires links > 0 && fs[stack + [cs[0]]].Link? && fs[stack + [cs[0]]].target.Some? && IsDirectory(fs, stack)
    requires var v := Target(fs[stack + [cs[0]]].target.value);
      Agree(fs, Base(stack, v), Expanded(v, cs[1..]), links - 1)
    ensures Agree(fs, stack, cs, links)
  {
    hide Split, Target, Expanded, Base, IsDirectory, Walk, StrictWalk, DotsAfterFile;
    var v := Target(fs[stack + [cs[0]]].target.value);
    LinkWalks(fs, stack, cs, links);
    ExpandedWalk(fs, Base(stack, v), v, cs[1..], links - 1);
  }

  lemma LinkWalks(fs: Tree, stack: seq<Component>, cs: seq<Component>, links: nat)
    requires cs != [] && cs[0] != "." && cs[0] != ".." && stack + [cs[0]] in fs
    requires links > 0 && fs[stack + [cs[0]]].Link? && fs[stack + [cs[0]]].target.Some? && IsDirectory(fs, stack)
    ensures var v := Target(fs[stack + [cs[0]]].target.value);
      && Walk(fs, stack, cs, links) == Walk(fs, Base(stack, v), Split(v) + cs[1..], links - 1)
      && StrictWalk(fs, stack, cs, links) == StrictWalk(fs, Base(stack, v), Expanded(v, cs[1..]), links - 1)
      && DotsAfterFile(fs, stack, cs, links) == DotsAfterFile(fs, Base(stack, v), Expanded(v, cs[1..]), links - 1)
  {
    hide Split, Target, Expanded, Base, IsDirectory;
  }

  lemma FailuresAgree(fs: Tree, stack: seq<Component>, cs: seq<Component>, links: nat)
    requires cs != [] ==> cs[0] != "." && cs[0] != ".."
    requires cs != [] && stack + [cs[0]] in fs ==>
      fs[stack + [cs[0]]].Link? && (links == 0 || fs[stack + [cs[0]]].target.None?)
    ensures Agree(fs, stack, cs, links)
  {
    hide Split, Target, Expanded, IsDirectory;
  }

  /** On a tree whose entries lie in directories the strict walk succeeds exactly where the plain one does and
      meets no "." or ".." after something that is no directory, with the same result. */
  lemma {:induction false} StrictExactlyIf(fs: Tree, stack: seq<Component>, cs: seq<Component>, links: nat)
    requires Nested(fs)
    ensures Agree(fs, stack, cs, links)
    decreases links, |cs|
  {
    hide Agree, Expanded, Target, Base;
    if cs != [] && cs[0] == "." {
      StrictExactlyIf(fs, stack, cs[1..], links);
      DotsAgree(fs, stack, cs, links);
    } else if cs != [] && cs[0] == ".." {
      StrictExactlyIf(fs, Parent(stack), cs[1..], links);
      DotsAgree(fs, stack, cs, links);
    } else if cs != [] && stack + [cs[0]] in fs {
      var p := stack + [cs[0]];
      assert Parent(p) == stack && IsDirectory(fs, stack);
      if !fs[p].Link? {
        StrictExactlyIf(fs, p, cs[1..], links);
        EntryAgrees(fs, stack, cs, links);
      } else if links > 0 && fs[p].target.Some? {
        var v := Target(fs[p].target.value);
        StrictExactlyIf(fs, Base(stack, v), Expanded(v, cs[1..]), links - 1);
        LinkAgrees(fs, stack, cs, links);
      } else {
        FailuresAgree(fs, stack, cs, links);
      }
    } else {
      FailuresAgree(fs, stack, cs, links);
    }
  }

  /** RealPath against that rule: where it succeeds, the rule gives the same path exactly if the walk meets no
      "." or ".." after something that is no directory. */
  lemma RealPathIsStrict(fs: Tree, room: Room, name: string)
    requires Nested(fs) && RealPathOf(fs, room, name).Some?
    ensures var p, o := Resolve(fs, room, [], name, MAX_LINKS).stack, StrictWalk(fs, [], Dotted(name), MAX_LINKS);
      && RealPathOf(fs, room, name) == Some(Render(p))
      && ((o.Resolved? && o.stack == p) <==> !DotsAfterFile(fs, [], Dotted(name), MAX_LINKS))
  {
    ResolveWalks(fs, room, [], name, MAX_LINKS);
    assert Expanded(name, []) == Dotted(name) && Split(name) + [] == Split(name);
    ExpandedWalk(fs, [], name, [], MAX_LINKS);
    StrictExactlyIf(fs, [], Dotted(name), MAX_LINKS);
    hide Resolve, Walk, StrictWalk, DotsAfterFile, Split, Nested;
  }

  /** A tree and a path for which they differ: a file at the root, and ".." after it. */
  lemma DotsMatter()
    ensures var fs, cs := map[["f"] := File], Dotted("/f/..");
      && Nested(fs) && DotsAfterFile(fs, [], cs, MAX_LINKS)
      && RealPathOf(fs, Fixed, "/f/..") == Some("/")
      && StrictWalk(fs, [], cs, MAX_LINKS) == Failed(NotDirectory)
  {
    FileThenDots(map[["f"] := File]);
    FileThenDotsResolves(map[["f"] := File]);
    hide Resolve, StrictWalk, DotsAfterFile, Nested, Dotted;
    FileThenDotsSplit();
  }

  lemma FileThenDotsSplit()
    ensures Dotted("/f/..") == ["f", ".."]
    ensures First("/f/..") == "f" && Rest("/f/..") == "/.."
  {
    FirstOfName("f", "/..");
    FirstOfName("..", "");
    assert "/" + "f" + "/.." == "/f/.." && "/" + ".." + "" == "/..";
    assert First("") == "";
    hide First, Rest;
    assert Split("/..") == [".."];
  }

  lemma FileThenDotsResolves(fs: Tree)
    requires fs == map[["f"] := File]
    ensures RealPathOf(fs, Fixed, "/f/..") == Some("/")
  {
    hide Resolve, First, Rest, Split, Join;
    FileThenDotsSplit();
    FileIsShort();
    assert [] + ["f"] == ["f"];
    DirectoryStep(fs, Fixed, [], "/f/..", MAX_LINKS);
    DotDotAlone(fs, Fixed, ["f"], MAX_LINKS);
  }

  lemma FileIsShort()
    ensures |Render(["f"])| == 2
  {
    assert Join([]) == "" && Render(["f"]) == "" + "/" + "f";
  }

  lemma FileThenDots(fs: Tree)
    requires fs == map[["f"] := File]
    ensures Nested(fs) && DotsAfterFile(fs, [], ["f", ".."], MAX_LINKS)
    ensures StrictWalk(fs, [], ["f", ".."], MAX_LINKS) == Failed(NotDirectory)
  {
    assert [] + ["f"] == ["f"] && ["f", ".."][1..] == [".."];
    assert StrictWalk(fs, ["f"], [".."], MAX_LINKS) == Failed(NotDirectory);
  }

  /** A component that is neither "." nor "..". */
  predicate NoDots(cs: seq<Component>) {
    "." !in cs && ".." !in cs
  }

  /** Without such components in the path and the links they never differ. */
  lemma {:induction false} NoDotsNoDifference(fs: Tree, stack: seq<Component>, cs: seq<Component>, links: nat)
    requires NoDots(cs)
    requires forall p | p in fs && fs[p].Link? && fs[p].target.Some? :: NoDots(Dotted(Target(fs[p].target.value)))
    ensures !DotsAfterFile(fs, stack, cs, links)
    decreases links, |cs|
  {
    hide Split, Target;
    if cs != [] {
      assert cs[0] in cs;
      var p := stack + [cs[0]];
      if p in fs {
        if !fs[p].Link? {
          NoDotsNoDifference(fs, p, cs[1..], links);
        } else if links > 0 && fs[p].target.Some? {
          var v := Target(fs[p].target.value);
          NoDotsNoDifference(fs, Base(stack, v), Expanded(v, cs[1..]), links - 1);
        }
      }
    }
  }
}
