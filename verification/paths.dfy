/**
  The meaning of RealPath (Misc.c) on values: a resolver over a stack of components, the text still to
  be read, the room in the buffer and the symbolic links it may still follow.
*/
module PathResolution {
  import opened Wrappers

  const PATH_MAX := 4096
  const MAX_LINKS := 40
  const NUL: char := '\0'

  type Component = seq<char>

  /** What lstat and readlink report of a path. A link whose target is `None` cannot be read. */
  datatype Node = File | Directory | Link(target: Option<string>)

  /** The file system, by the components of a path below the root. */
  type Tree = map<seq<Component>, Node>

  /** No link target holds a NUL byte. */
  predicate Readable(fs: Tree) {
    forall p | p in fs && fs[p].Link? && fs[p].target.Some? :: NUL !in fs[p].target.value
  }

  // ----- text and components -----

  /** The number of separators `s` starts with. */
  function Slashes(s: string): (n: nat)
    ensures n <= |s| && (forall i | 0 <= i < n :: s[i] == '/')
    ensures n < |s| ==> s[n] != '/'
  {
    if s == "" || s[0] != '/' then 0 else 1 + Slashes(s[1..])
  }

  /** The length of the component `s` starts with. */
  function Span(s: string): (n: nat)
    ensures n <= |s| && (forall i | 0 <= i < n :: s[i] != '/')
    ensures n < |s| ==> s[n] == '/'
  {
    if s == "" || s[0] == '/' then 0 else 1 + Span(s[1..])
  }

  function Trim(s: string): (t: string)
    ensures |t| <= |s| && (t != "" ==> t[0] != '/')
  {
    s[Slashes(s)..]
  }

  function First(s: string): (c: Component) {
    Trim(s)[..Span(Trim(s))]
  }

  function Rest(s: string): (r: string)
    ensures |r| + |First(s)| <= |s|
    ensures r == "" || r[0] == '/'
  {
    Trim(s)[Span(Trim(s))..]
  }

  /** The components of a path text. */
  function Split(s: string): seq<Component>
    decreases |s|
  {
    if First(s) == "" then [] else [First(s)] + Split(Rest(s))
  }

  function Join(p: seq<Component>): string {
    if p == [] then "" else Join(p[..|p| - 1]) + "/" + p[|p| - 1]
  }

  /** The text of a stack of components. */
  function Render(p: seq<Component>): (s: string)
    ensures s != ""
  {
    if p == [] then "/" else Join(p)
  }

  /** A component that names an entry of a directory. */
  predicate Proper(c: Component) {
    c != "" && c != "." && c != ".." && '/' !in c && NUL !in c
  }

  predicate AllProper(p: seq<Component>) {
    forall i | 0 <= i < |p| :: Proper(p[i])
  }

  function Parent(p: seq<Component>): seq<Component> {
    if p == [] then [] else p[..|p| - 1]
  }

  // ----- the resolver -----

  /** NotDirectory is for comparison only: RealPath never finds out. */
  datatype Error = NoRoom | NotFound | TooManyLinks | Unreadable | TooLong | NotDirectory

  datatype Outcome = Resolved(stack: seq<Component>, links: nat) | Failed(error: Error)

  /** The buffer: the caller's own, of PATH_MAX bytes, or one that grows. `grants` tells which sizes
      the allocator has memory for. */
  datatype Room = Fixed | Growing(limit: nat, grants: nat -> bool)
  {
    function Limit(): nat { if Fixed? then PATH_MAX else limit }

    /** The room after a component of `n` bytes was added that ends at offset `end`. */
    function Fit(end: nat, n: nat): Option<Room> {
      if end < Limit() then Some(this)
      else if Fixed? then None
      else
        var size := limit + (if n + 1 > PATH_MAX then n + 1 else PATH_MAX);
        if grants(size) then Some(Growing(size, grants)) else None
    }
  }

  /** What readlink stores of a target. */
  function Target(t: string): (v: string)
    ensures |v| < PATH_MAX
  {
    if |t| < PATH_MAX then t else t[..PATH_MAX - 1]
  }

  function Base(stack: seq<Component>, target: string): seq<Component> {
    if target != "" && target[0] == '/' then [] else stack
  }

  function Resolve(fs: Tree, room: Room, stack: seq<Component>, s: string, links: nat): Outcome
    decreases links, |s|, 0
  {
    var c, rest := First(s), Rest(s);
    if c == "" then Resolved(stack, links)
    else if c == "." then Resolve(fs, room, stack, rest, links)
    else if c == ".." then Resolve(fs, room, Parent(stack), rest, links)
    else Enter(fs, room, stack, c, rest, links)
  }

  /** Go down to the entry `c`. */
  function Enter(fs: Tree, room: Room, stack: seq<Component>, c: Component, rest: string, links: nat): Outcome
    decreases links, |rest|, 1
  {
    var p := stack + [c];
    match room.Fit(|Render(p)|, |c|)
    case None => Failed(NoRoom)
    case Some(room') =>
      if p !in fs then Failed(NotFound)
      else if !fs[p].Link? then Resolve(fs, room', p, rest, links)
      else if links == 0 then Failed(TooManyLinks)
      else if fs[p].target.None? then Failed(Unreadable)
      else
        var v := Target(fs[p].target.value);
        if |v| + |rest| >= PATH_MAX then Failed(TooLong)
        else Resolve(fs, room', Base(stack, v), v + rest, links - 1)
  }

  /** RealPath as a function of the path text. */
  function RealPathOf(fs: Tree, room: Room, name: string): Option<string> {
    if name == "" || name[0] != '/' then None
    else
      match Resolve(fs, room, [], name, MAX_LINKS)
      case Resolved(stack, _) => Some(Render(stack))
      case Failed(_) => None
  }
}
