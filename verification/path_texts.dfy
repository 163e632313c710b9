/**
  What the parts of a path text mean to RealPath: ".", "..", repeated separators, long link texts, and the sizes of
  the buffer.
*/
module PathTexts {
  import opened Wrappers
  import opened PathResolution
  import opened PathLaws
  import opened PathWalk
  import opened PathLinks

  /** The same end, unless a text gets too long on either way. */
  predicate SameEnd(o: Outcome, o': Outcome) {
    o == o' || o == Failed(TooLong) || o' == Failed(TooLong)
  }

  /** If no text can get too long it is the same end without exception. */
  lemma SameWhenShort(fs: Tree, n: nat, room: Room, s: string, s': string, links: nat)
    requires SameEnd(Resolve(fs, room, [], s, links), Resolve(fs, room, [], s', links)) && TargetsWithin(fs, n)
    requires |s| + links * n < PATH_MAX && |s'| + links * n < PATH_MAX
    ensures Resolve(fs, room, [], s, links) == Resolve(fs, room, [], s', links)
  {
    hide Resolve;
    NeverTooLong(fs, n, room, [], s, links);
    NeverTooLong(fs, n, room, [], s', links);
  }

  /** Two texts that mean the same where `front` leads mean the same after it. */
  lemma SameAfter(fs: Tree, room: Room, front: string, back: string, back': string, links: nat)
    requires Generous(room) && (back == "" || back[0] == '/') && (back' == "" || back'[0] == '/')
    requires var o := Resolve(fs, room, [], front, links);
      o.Resolved? && Resolve(fs, room, o.stack, back, o.links) == Resolve(fs, room, o.stack, back', o.links)
    ensures SameEnd(Resolve(fs, room, [], front + back, links), Resolve(fs, room, [], front + back', links))
  {
    hide Resolve, Generous, Overflows;
    ThenBack(fs, room, [], front, back, links);
    ThenBack(fs, room, [], front, back', links);
  }

  /** A separator more and a component "." change nothing. */
  lemma DotAndSeparator(fs: Tree, room: Room, front: string, back: string, links: nat)
    requires Generous(room) && (back == "" || back[0] == '/') && Resolve(fs, room, [], front, links).Resolved?
    ensures SameEnd(Resolve(fs, room, [], front + ("/" + back), links), Resolve(fs, room, [], front + back, links))
    ensures SameEnd(Resolve(fs, room, [], front + ("/." + back), links), Resolve(fs, room, [], front + back, links))
  {
    hide Resolve, Generous;
    var o := Resolve(fs, room, [], front, links);
    SeparatorFirst(fs, room, o.stack, back, o.links);
    SameAfter(fs, room, front, "/" + back, back, links);
    DotFirst(fs, room, o.stack, back, o.links);
    SameAfter(fs, room, front, "/." + back, back, links);
  }

  lemma DotFirst(fs: Tree, room: Room, stack: seq<Component>, back: string, links: nat)
    requires back == "" || back[0] == '/'
    ensures Resolve(fs, room, stack, "/." + back, links) == Resolve(fs, room, stack, back, links)
  {
    FirstOfName(".", back);
    assert "/" + "." + back == "/." + back;
    hide First, Rest, Enter;
  }

  /** ".." takes back the component before it, if that is no link, "." or ".." ... */
  lemma DotDotTakesBack(fs: Tree, room: Room, front: string, c: Component, back: string, links: nat)
    requires Generous(room) && (back == "" || back[0] == '/') && Resolve(fs, room, [], front, links).Resolved?
    requires c != "" && c != "." && c != ".." && '/' !in c
    requires var p := Resolve(fs, room, [], front, links).stack + [c]; p in fs && !fs[p].Link?
    ensures SameEnd(Resolve(fs, room, [], front + ("/" + c + ("/.." + back)), links),
      Resolve(fs, room, [], front + back, links))
  {
    hide Resolve, Generous, Parent;
    var o := Resolve(fs, room, [], front, links);
    EntryFirst(fs, room, o.stack, c, "/.." + back, o.links);
    DotDotFirst(fs, room, o.stack + [c], back, o.links);
    UpFromEntry(o.stack, c);
    SameAfter(fs, room, front, "/" + c + ("/.." + back), back, links);
  }

  lemma UpFromEntry(stack: seq<Component>, c: Component)
    ensures Parent(stack + [c]) == stack
  {
  }

  lemma EntryFirst(fs: Tree, room: Room, stack: seq<Component>, c: Component, back: string, links: nat)
    requires Generous(room) && (back == "" || back[0] == '/') && c != "" && c != "." && c != ".." && '/' !in c
    requires stack + [c] in fs && !fs[stack + [c]].Link?
    ensures Resolve(fs, room, stack, "/" + c + back, links) == Resolve(fs, room, stack + [c], back, links)
  {
    hide First, Rest, Generous, Room.Fit, Render, Enter;
    FirstOfName(c, back);
    GenerousFits(room, |Render(stack + [c])|, |c|);
    var r := room.Fit(|Render(stack + [c])|, |c|).value;
    EnterIs(fs, room, stack, c, back, links);
    assert Resolve(fs, room, stack, "/" + c + back, links) == Enter(fs, room, stack, c, back, links);
    hide Resolve;
    RoomIrrelevant(fs, r, room, stack + [c], back, links);
  }

  lemma DotDotFirst(fs: Tree, room: Room, stack: seq<Component>, back: string, links: nat)
    requires back == "" || back[0] == '/'
    ensures Resolve(fs, room, stack, "/.." + back, links) == Resolve(fs, room, Parent(stack), back, links)
  {
    FirstOfName("..", back);
    assert "/" + ".." + back == "/.." + back;
    hide First, Rest, Enter;
  }

  /** ... and stays at the root. */
  lemma DotDotAtRoot(fs: Tree, room: Room, back: string, links: nat)
    requires back == "" || back[0] == '/'
    ensures Resolve(fs, room, [], "/.." + back, links) == Resolve(fs, room, [], back, links)
  {
    DotDotFirst(fs, room, [], back, links);
    hide Resolve;
  }

  // ----- long link texts -----

  /** The trees differ in link texts only, and there only after the first 4095 bytes. */
  predicate SameBeginnings(fs: Tree, fs': Tree) {
    && fs'.Keys == fs.Keys
    && (forall p | p in fs :: SameNode(fs[p], fs'[p]))
  }

  predicate SameNode(node: Node, node': Node) {
    || node' == node
    || (node.Link? && node'.Link? && node.target.Some? && node'.target.Some?
        && SameBeginning(node.target.value, node'.target.value))
  }

  predicate SameBeginning(t: string, t': string) {
    |t| >= 4095 && |t'| >= 4095 && t[..4095] == t'[..4095]
  }

  /** What a link's text has after its first 4095 bytes does not matter. */
  lemma {:induction false} OnlyBeginnings(fs: Tree, fs': Tree, room: Room, stack: seq<Component>, s: string, links: nat)
    requires SameBeginnings(fs, fs')
    ensures Resolve(fs', room, stack, s, links) == Resolve(fs, room, stack, s, links)
    decreases links, |s|, 0
  {
    var c, rest := First(s), Rest(s);
    hide First, Rest, SameBeginnings, Enter;
    if c == "" {
    } else if c == "." {
      OnlyBeginnings(fs, fs', room, stack, rest, links);
    } else if c == ".." {
      OnlyBeginnings(fs, fs', room, Parent(stack), rest, links);
    } else {
      OnlyBeginningsEnter(fs, fs', room, stack, c, rest, links);
    }
  }

  lemma {:induction false} OnlyBeginningsEnter(fs: Tree, fs': Tree, room: Room, stack: seq<Component>, c: Component,
      rest: string, links: nat)
    requires SameBeginnings(fs, fs')
    ensures Enter(fs', room, stack, c, rest, links) == Enter(fs, room, stack, c, rest, links)
    decreases links, |rest|, 1
  {
    hide Resolve, Room.Fit, Render, Base, SameBeginning, SameBeginnings, Target;
    var p, fit := stack + [c], room.Fit(|Render(stack + [c])|, |c|);
    NodesAgree(fs, fs', p);
    if fit.Some? && p in fs {
      if !fs[p].Link? {
        OnlyBeginnings(fs, fs', fit.value, p, rest, links);
      } else if links > 0 && fs[p].target.Some? {
        var v := Target(fs[p].target.value);
        if |v| + |rest| < PATH_MAX {
          OnlyBeginnings(fs, fs', fit.value, Base(stack, v), v + rest, links - 1);
        }
      }
    }
  }

  lemma NodesAgree(fs: Tree, fs': Tree, p: seq<Component>)
    requires SameBeginnings(fs, fs')
    ensures p in fs' <==> p in fs
    ensures p in fs ==>
      && (fs'[p].Link? <==> fs[p].Link?)
      && (fs[p].Link? ==>
        && (fs'[p].target.Some? <==> fs[p].target.Some?)
        && (fs[p].target.Some? ==> Target(fs'[p].target.value) == Target(fs[p].target.value)))
  {
    assert p in fs ==> SameNode(fs[p], fs'[p]);
  }

  // ----- the sizes of the buffer -----

  /** The buffer grows by 4096 bytes at a time: an allocator with memory for every multiple of that is enough for
      every name shorter than it. */
  lemma {:induction false} GrowsByPages(fs: Tree, room: Room, stack: seq<Component>, s: string, links: nat)
    requires room.Growing? && room.limit % 4096 == 0 && (forall i: nat :: room.grants(i * 4096)) && |s| < 4096
    ensures Resolve(fs, room, stack, s, links) != Failed(NoRoom)
    decreases links, |s|
  {
    var c, rest := First(s), Rest(s);
    hide First, Rest, Target;
    if c == "" {
    } else if c == "." {
      GrowsByPages(fs, room, stack, rest, links);
    } else if c == ".." {
      GrowsByPages(fs, room, Parent(stack), rest, links);
    } else {
      var p, end := stack + [c], |Render(stack + [c])|;
      PageMore(room, end, |c|);
      var room' := room.Fit(end, |c|).value;
      hide Room.Fit, Render;
      if p in fs {
        if !fs[p].Link? {
          GrowsByPages(fs, room', p, rest, links);
        } else if links > 0 && fs[p].target.Some? {
          var v := Target(fs[p].target.value);
          if |v| + |rest| < PATH_MAX { GrowsByPages(fs, room', Base(stack, v), v + rest, links - 1); }
        }
      }
    }
  }

  /** For a name that needs more it grows by just what the name and its NUL need. */
  lemma OneLongName(fs: Tree, grants: nat -> bool, c: Component)
    requires Proper(c) && [c] in fs && !fs[[c]].Link?
    ensures RealPathOf(fs, Growing(4096, grants), "/" + c) ==
      if |c| < 4095 || grants(if |c| == 4095 then 8192 else 4096 + |c| + 1) then Some("/" + c) else None
  {
    hide First, Rest, Enter, Render;
    FirstOfName(c, "");
    assert "/" + c + "" == "/" + c && [] + [c] == [c];
    NameIsShort(c);
    var room: Room := Growing(4096, grants);
    OneEntry(fs, room, c);
  }

  lemma OneEntry(fs: Tree, room: Room, c: Component)
    requires Proper(c) && [c] in fs && !fs[[c]].Link? && |Render([c])| == |c| + 1
    ensures Enter(fs, room, [], c, "", MAX_LINKS) ==
      if room.Fit(|c| + 1, |c|).Some? then Resolved([c], MAX_LINKS) else Failed(NoRoom)
  {
    assert [] + [c] == [c];
    var fit := room.Fit(|c| + 1, |c|);
    if fit.Some? { NothingLeft(fs, fit.value, [c], MAX_LINKS); }
    hide Resolve, Render, Room.Fit;
  }

  lemma PageMore(room: Room, end: nat, n: nat)
    requires room.Growing? && room.limit % 4096 == 0 && (forall i: nat :: room.grants(i * 4096)) && n < 4096
    ensures var r := room.Fit(end, n);
      r.Some? && r.value.Growing? && r.value.limit % 4096 == 0 && r.value.grants == room.grants
  {
    var i := room.limit / 4096 + 1;
    assert i * 4096 == room.limit + 4096;
    assert room.grants(i * 4096);
  }
}
