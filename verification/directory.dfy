/**
  Reading a directory through a file handle (ReadWrite.c:57-178): a stream of entries with one entry
  kept back when the caller's buffer was too small for it.
*/
module DirectoryCursor {
  import opened Wrappers

  /** The fixed part of EFI_FILE_INFO (section 13.5 of the UEFI Specification 2.10), up to the name. */
  const SIZE_OF_EFI_FILE_INFO := 80
  const SIZE_OF_CHAR16 := 2

  type Byte = n: int | 0 <= n < 256

  /** d_name: bytes, none of them NUL. */
  type Name = s: string | forall i | 0 <= i < |s| :: 0 < s[i] as int < 256

  datatype Status = Success | BufferTooSmall | DeviceError | Unsupported | OpenError(code: int)

  /** What a call hands back: the status, the new value of *BufferSize and what it wrote to the beginning of the
      caller's buffer, if anything. */
  datatype Reply = Reply(status: Status, size: nat, written: seq<Byte>)

  /** The size of an entry with this name; the name is stored as 16-bit characters and ended by NUL. */
  function EntrySize(name: Name): nat {
    SIZE_OF_EFI_FILE_INFO + (|name| + 1) * SIZE_OF_CHAR16
  }

  // ----- what is written of an entry -----

  /** The `k` low bytes of `n`, the lowest first. */
  function Word(n: nat, k: nat): (w: seq<Byte>)
    ensures |w| == k
  {
    if k == 0 then [] else [n % 256] + Word(n / 256, k - 1)
  }

  /** A name as 16-bit characters, ended by NUL. */
  function Text16(name: Name): (w: seq<Byte>)
    ensures |w| == (|name| + 1) * SIZE_OF_CHAR16
  {
    if name == "" then Word(0, 2) else Word(name[0] as int, 2) + Text16(name[1..])
  }

  /** The structure: its size as a 64-bit number, 72 bytes for the file's attributes, the name. */
  function Info(name: Name): (w: seq<Byte>)
    ensures |w| == EntrySize(name)
  {
    Word(EntrySize(name), 8) + Word(0, SIZE_OF_EFI_FILE_INFO - 8) + Text16(name)
  }

  // ----- how the caller reads it -----

  /** Where the name is: after three 64-bit numbers, three times of 16 bytes and the 64-bit attributes. */
  const NAME_OFFSET := 3 * 8 + 3 * 16 + 8

  function Value(w: seq<Byte>): nat {
    if w == [] then 0 else w[0] + 256 * Value(w[1..])
  }

  /** The text of 16-bit characters that begins at offset `i`, up to NUL; none if there is no NUL, or a character
      of more than a byte before it. */
  function TextAt(w: seq<Byte>, i: nat): Option<string>
    decreases |w| - i
  {
    if i + 2 > |w| then None
    else if w[i] == 0 && w[i + 1] == 0 then Some("")
    else if w[i + 1] != 0 then None
    else
      match TextAt(w, i + 2)
      case None => None
      case Some(text) => Some([w[i] as char] + text)
  }

  function NameIn(w: seq<Byte>): Option<string> {
    TextAt(w, NAME_OFFSET)
  }

  function SizeIn(w: seq<Byte>): nat
    requires |w| >= 8
  {
    Value(w[..8])
  }

  /** The caller finds name and size in what was written, whatever lies behind it in the buffer, and would find no
      name in any less. */
  lemma InfoReads(name: Name, behind: seq<Byte>, n: nat)
    ensures NameIn(Info(name) + behind) == Some(name)
    ensures n < |Info(name)| ==> NameIn(Info(name)[..n]) == None
    ensures SizeIn(Info(name) + behind) == |Info(name)| % 0x1_0000_0000_0000_0000
  {
    hide TextAt, Text16, Word;
    var w, t := Info(name), Text16(name);
    var fixed := Word(EntrySize(name), 8) + Word(0, SIZE_OF_EFI_FILE_INFO - 8);
    assert w + behind == fixed + t + behind;
    TextReads(name, fixed, behind);
    if n < |w| {
      assert w[..n] == if n <= |fixed| then fixed[..n] else fixed + t[..n - |fixed|];
      if n <= |fixed| { NoText(w[..n]); } else { TextIncomplete(name, fixed, n - |fixed|); }
    }
    assert (w + behind)[..8] == Word(EntrySize(name), 8);
    ValueOfWord(EntrySize(name), 8);
    EightBytes();
  }

  lemma NoText(w: seq<Byte>)
    requires |w| <= NAME_OFFSET
    ensures NameIn(w) == None
  {
  }

  lemma Char16(c: char)
    requires 0 < c as int < 256
    ensures Word(c as int, 2) == [c as int, 0]
  {
    assert Word(0, 1) == [0];
  }

  lemma Nul16()
    ensures Word(0, 2) == [0, 0]
  {
    assert Word(0, 1) == [0];
  }

  lemma {:induction false} TextReads(name: Name, front: seq<Byte>, behind: seq<Byte>)
    ensures TextAt(front + Text16(name) + behind, |front|) == Some(name)
    decreases |name|
  {
    hide Word;
    Nul16();
    var w := front + Text16(name) + behind;
    if name != "" {
      Char16(name[0]);
      TextReads(name[1..], front + [name[0] as int, 0], behind);
      assert w == front + [name[0] as int, 0] + Text16(name[1..]) + behind;
      assert name == [name[0]] + name[1..];
    } else {
      assert w[|front|] == 0 && w[|front| + 1] == 0;
    }
  }

  lemma {:induction false} TextIncomplete(name: Name, front: seq<Byte>, n: nat)
    requires n < |Text16(name)|
    ensures TextAt(front + Text16(name)[..n], |front|) == None
    decreases |name|
  {
    hide Word;
    Nul16();
    if name != "" && n >= 2 {
      Char16(name[0]);
      var w := front + Text16(name)[..n];
      TextIncomplete(name[1..], front + [name[0] as int, 0], n - 2);
      assert w == front + [name[0] as int, 0] + Text16(name[1..])[..n - 2];
    }
  }

  function Power(k: nat): nat {
    if k == 0 then 1 else 256 * Power(k - 1)
  }

  lemma EightBytes()
    ensures Power(8) == 0x1_0000_0000_0000_0000
  {
    assert Power(2) == 0x1_0000 && Power(4) == 0x1_0000_0000 && Power(6) == 0x1_0000_0000_0000;
  }

  lemma {:induction false} ValueOfWord(n: nat, k: nat)
    ensures Power(k) > 0 && Value(Word(n, k)) == n % Power(k)
    decreases k
  {
    if k > 0 {
      ValueOfWord(n / 256, k - 1);
      assert Word(n, k)[1..] == Word(n / 256, k - 1);
      hide Word, Value;
      LowByte(n, Power(k - 1));
    }
  }

  lemma LowByte(n: nat, m: nat)
    requires m > 0
    ensures n % 256 + 256 * (n / 256 % m) == n % (256 * m)
  {
    var q, r := n / 256 / m, n / 256 % m;
    assert n / 256 == m * q + r;
    assert n == 256 * (n / 256) + n % 256;
    assert 256 * (m * q + r) == (256 * m) * q + 256 * r;
    Remainder(n, 256 * m, q, n % 256 + 256 * r);
  }

  lemma Remainder(n: nat, d: nat, q: nat, r: nat)
    requires d > 0 && n == d * q + r && r < d
    ensures n % d == r
  {
    var q', r' := n / d, n % d;
    assert n == d * q' + r';
    if q' < q { AtLeast(d, q' + 1, q); } else if q < q' { AtLeast(d, q + 1, q'); }
  }

  lemma AtLeast(d: nat, a: nat, b: nat)
    requires a <= b
    ensures d * a <= d * b && (a > 0 ==> d * a == d * (a - 1) + d)
  {
  }

  // ----- the handle on values -----

  /** `next` entries were handed out since the last rewind; `kept` says that the one after them was
      taken from the stream already. */
  datatype Cursor = Cursor(entries: seq<Name>, open: bool, next: nat, kept: bool)

  /** A call. A read comes with what the file system below would answer: the error code for opening
      the directory, if it cannot be opened, and whether reading the stream fails. */
  datatype Call = Read(size: nat, openError: Option<int>, fails: bool) | SetPosition(position: nat)

  predicate Proper(c: Cursor) {
    c.next <= |c.entries| && (c.kept ==> c.open && c.next < |c.entries|)
  }

  function Step(c: Cursor, call: Call): (Cursor, Reply)
    requires Proper(c)
  {
    match call
    case SetPosition(position) =>
      if position == 0 then (c.(next := 0, kept := false), Reply(Success, 0, []))
      else (c, Reply(Unsupported, 0, []))
    case Read(size, openError, fails) =>
      if !c.open && openError.Some? then (c, Reply(OpenError(openError.value), size, []))
      else
        var o := c.(open := true);
        if !c.kept && fails then (o, Reply(DeviceError, 0, []))
        else if c.next == |c.entries| then (o, Reply(Success, 0, []))
        else
          var n := EntrySize(c.entries[c.next]);
          if n > size then (o.(kept := true), Reply(BufferTooSmall, n, []))
          else (o.(next := c.next + 1, kept := false), Reply(Success, size, Info(c.entries[c.next])))
  }

  function Run(c: Cursor, calls: seq<Call>): Cursor
    requires Proper(c)
    decreases |calls|
  {
    if calls == [] then c else Run(Step(c, calls[0]).0, calls[1..])
  }

  /** The names the caller was given since the last rewind, judging by the calls and their replies;
      `got` were given before. */
  function Given(c: Cursor, calls: seq<Call>, got: seq<string>): seq<string>
    requires Proper(c)
    decreases |calls|
  {
    if calls == [] then got
    else
      var (c', r) := Step(c, calls[0]);
      Given(c', calls[1..],
        if calls[0] == SetPosition(0) then []
        else if NameIn(r.written).Some? then got + [NameIn(r.written).value]
        else got)
  }

  /** What the calls answer. */
  function Replies(c: Cursor, calls: seq<Call>): seq<Reply>
    requires Proper(c)
    decreases |calls|
  {
    if calls == [] then [] else [Step(c, calls[0]).1] + Replies(Step(c, calls[0]).0, calls[1..])
  }

  // ----- properties -----

  /** Whatever the buffer sizes, the errors and the rewinds: what the caller was given since the last
      rewind is exactly the beginning of the stream, nothing lost and nothing twice. */
  lemma {:induction false} GivenIsPrefix(c: Cursor, calls: seq<Call>)
    requires Proper(c)
    ensures var c' := Run(c, calls);
      Proper(c') && c'.entries == c.entries && Given(c, calls, c.entries[..c.next]) == c.entries[..c'.next]
    decreases |calls|
  {
    hide NameIn, Info;
    if calls != [] {
      var (c', r) := Step(c, calls[0]);
      GivenIsPrefix(c', calls[1..]);
      WrittenName(c, calls[0]);
      if NameIn(r.written).Some? {
        assert c.entries[..c.next] + [c.entries[c.next]] == c.entries[..c.next + 1];
      }
    }
  }

  /** What was written, if anything, is the next entry. */
  lemma WrittenName(c: Cursor, call: Call)
    requires Proper(c)
    ensures var (c', r) := Step(c, call);
      && (NameIn(r.written).Some? <==> r.written != [])
      && (r.written != [] ==>
        && call.Read? && c.next < |c.entries| && c'.next == c.next + 1
        && r.written == Info(c.entries[c.next]) && NameIn(r.written) == Some(c.entries[c.next]))
  {
    hide NameIn, Info;
    NoText([]);
    if c.next < |c.entries| {
      var name := c.entries[c.next];
      InfoReads(name, [], 0);
      assert Info(name) + [] == Info(name);
    }
  }

  /** What a read answers, judged by what the caller was given since the last rewind: a buffer is too small
      exactly for the entry that comes right after, with that entry's size; a name given is that entry's;
      and the end is reported only to a caller who was given everything. */
  lemma RepliesFollowGiven(c: Cursor, calls: seq<Call>, size: nat, openError: Option<int>, fails: bool)
    requires Proper(c) && c.next == 0
    ensures Proper(Run(c, calls))
    ensures var got, r := Given(c, calls, []), Step(Run(c, calls), Read(size, openError, fails)).1;
      && |got| <= |c.entries|
      && (r.status == BufferTooSmall ==> |got| < |c.entries| && r.size == |Info(c.entries[|got|])| > size)
      && (r.written != [] ==>
        |got| < |c.entries| && r.written == Info(c.entries[|got|]) && |r.written| <= size
          && NameIn(r.written) == Some(c.entries[|got|]))
      && (r == Reply(Success, 0, []) ==> got == c.entries)
      && (openError == None && !fails && got != c.entries ==> r.status == BufferTooSmall || r.written != [])
  {
    GivenIsPrefix(c, calls);
    assert c.entries[..0] == [];
    var c' := Run(c, calls);
    assert |Given(c, calls, [])| == c'.next;
    hide Run, Given, Info, NameIn;
    WrittenName(c', Read(size, openError, fails));
  }

  /** When an entry is due and nothing goes wrong: the buffer is too small exactly if the fixed part and the name
      as it is written do not fit; the size then reported is what the retry writes, to the byte; and otherwise
      the name is delivered within the buffer. */
  lemma TooSmallExactly(c: Cursor, size: nat)
    requires Proper(c) && c.next < |c.entries|
    ensures var name := c.entries[c.next];
      var (c1, r) := Step(c, Read(size, None, false));
      var retry := Step(c1, Read(r.size, None, false)).1;
      if size < NAME_OFFSET + |Text16(name)| then
        && r.status == BufferTooSmall && r.written == []
        && retry.status == Success && |retry.written| == r.size && NameIn(retry.written) == Some(name)
      else r.status == Success && r.size == size && |r.written| <= size && NameIn(r.written) == Some(name)
  {
    hide NameIn, Info, Text16;
    var (c1, r) := Step(c, Read(size, None, false));
    WrittenName(c, Read(size, None, false));
    WrittenName(c1, Read(r.size, None, false));
  }

  // ----- seeks -----

  /** A seek succeeds exactly for position 0. */
  lemma SeekAnswers(c: Cursor, position: nat)
    requires Proper(c)
    ensures Step(c, SetPosition(position)).1.status == if position == 0 then Success else Unsupported
  {
  }

  /** After a seek that succeeded the caller gets the whole directory from its first entry, and then the end. */
  lemma SeekStartsOver(c: Cursor, position: nat, guess: nat)
    requires Proper(c) && Step(c, SetPosition(position)).1.status == Success
    ensures var c' := Step(c, SetPosition(position)).0;
      var calls := ReadAll(c', guess, |c.entries|);
      && Given(c', calls, []) == c.entries
      && Proper(Run(c', calls)) && Step(Run(c', calls), Read(guess, None, false)).1 == Reply(Success, 0, [])
  {
    WholeDirectory(Step(c, SetPosition(position)).0, guess);
  }

  /** Nor does it matter what was read before that seek. */
  lemma SeekForgets(c: Cursor, before: seq<Call>, position: nat, calls: seq<Call>)
    requires Proper(c) && c.open && Proper(Run(c, before))
    requires Step(Run(c, before), SetPosition(position)).1.status == Success
    ensures var c' := Step(Run(c, before), SetPosition(position)).0;
      Replies(c', calls) == Replies(c.(next := 0, kept := false), calls)
  {
    GivenIsPrefix(c, before);
    StaysOpen(c, before);
  }

  lemma {:induction false} StaysOpen(c: Cursor, calls: seq<Call>)
    requires Proper(c) && c.open
    ensures Run(c, calls).open
    decreases |calls|
  {
    if calls != [] { StaysOpen(Step(c, calls[0]).0, calls[1..]); }
  }

  /** After a seek that is not supported every later call is answered as if there had been none. */
  lemma SeekLeavesAlone(c: Cursor, position: nat, calls: seq<Call>)
    requires Proper(c) && Step(c, SetPosition(position)).1.status == Unsupported
    ensures Replies(Step(c, SetPosition(position)).0, calls) == Replies(c, calls)
  {
  }

  // ----- errors -----

  /** Opening and reading go well. */
  predicate Untroubled(calls: seq<Call>) {
    forall call | call in calls && call.Read? :: call.openError == None && !call.fails
  }

  /** A read that gave nothing, for whatever reason, has lost nothing: calls that meet no error are answered as
      if it had not been made. */
  lemma {:induction false} NothingGivenNothingLost(c: Cursor, call: Call, calls: seq<Call>)
    requires Proper(c) && call.Read? && Step(c, call).1.written == [] && Untroubled(calls)
    ensures Replies(Step(c, call).0, calls) == Replies(c, calls)
  {
    SameReplies(c, Step(c, call).0, calls);
  }

  lemma {:induction false} SameReplies(c: Cursor, c': Cursor, calls: seq<Call>)
    requires Proper(c) && Proper(c') && c'.entries == c.entries && c'.next == c.next && Untroubled(calls)
    ensures Replies(c', calls) == Replies(c, calls)
    decreases |calls|
  {
    hide Info;
    if calls != [] {
      assert calls[0] in calls;
      forall x | x in calls[1..] ensures x in calls {}
      SameReplies(Step(c, calls[0]).0, Step(c', calls[0]).0, calls[1..]);
    }
  }

  /** An error is reported only when it happened: failing to open the directory, with its code, only until it is
      open, and failing to read it only when no entry was kept back. */
  lemma ErrorsReported(c: Cursor, call: Call, more: Call)
    requires Proper(c) && call.Read? && more.Read?
    ensures var (c1, r) := Step(c, call);
      && (r.status.OpenError? ==> call.openError == Some(r.status.code) && r.size == call.size && c1 == c)
      && (!r.status.OpenError? ==> !Step(c1, more).1.status.OpenError?)
      && (r.status == DeviceError ==> call.fails && r.size == 0)
      && (r.status == BufferTooSmall ==> Step(c1, more).1.status != DeviceError)
      && r.status != Unsupported
  {
  }

  /** A read with a buffer of less than `n` bytes, or a seek that does not rewind. */
  predicate LeavesKept(call: Call, n: nat) {
    match call
    case Read(size, _, _) => size < n
    case SetPosition(position) => position != 0
  }

  /** An entry that was kept back stays kept, with the same answer, however often it is asked for with
      too small a buffer and whatever goes wrong below, until it is read or the handle rewound. */
  lemma {:induction false} KeptEntryStays(c: Cursor, calls: seq<Call>, size: nat, openError: Option<int>, fails: bool)
    requires Proper(c) && c.kept
    requires forall call | call in calls :: LeavesKept(call, |Info(c.entries[c.next])|)
    ensures Run(c, calls) == c
    ensures var (c', r) := Step(Run(c, calls), Read(size, openError, fails));
      var name := c.entries[c.next];
      if size >= |Info(name)| then r == Reply(Success, size, Info(name))
        && c'.next == c.next + 1
      else r == Reply(BufferTooSmall, |Info(name)|, []) && c' == c
    decreases |calls|
  {
    if calls != [] {
      assert LeavesKept(calls[0], |Info(c.entries[c.next])|);
      forall call | call in calls[1..] ensures call in calls {}
      KeptEntryStays(c, calls[1..], size, openError, fails);
    }
  }

  /** Asking again with the size reported delivers the entry the report was about. */
  lemma RetryDelivers(c: Cursor, first: Call, again: Call)
    requires Proper(c) && first.Read? && again.Read?
    requires Step(c, first).1.status == BufferTooSmall && again.size >= Step(c, first).1.size
    ensures var r := Step(Step(c, first).0, again).1;
      r.status == Success && NameIn(r.written) == Some(c.entries[c.next])
  {
    hide NameIn, Info;
    KeptEntryStays(Step(c, first).0, [], again.size, again.openError, again.fails);
    WrittenName(Step(c, first).0, again);
  }

  /** The calls of a caller who reads with a first guess and, when that was too small, once more with
      the size reported. */
  function ReadAll(c: Cursor, guess: nat, n: nat): seq<Call>
    requires Proper(c)
    decreases n
  {
    var call := Read(guess, None, false);
    var (c', r) := Step(c, call);
    if n == 0 then []
    else if r.status == BufferTooSmall then
      var more := Read(r.size, None, false);
      [call, more] + ReadAll(Step(c', more).0, guess, n - 1)
    else [call] + ReadAll(c', guess, n - 1)
  }

  lemma {:induction false} RunAppend(c: Cursor, xs: seq<Call>, ys: seq<Call>)
    requires Proper(c)
    ensures Proper(Run(c, xs)) && Run(c, xs + ys) == Run(Run(c, xs), ys)
    decreases |xs|
  {
    if xs == [] {
      assert xs + ys == ys;
    } else {
      assert (xs + ys)[1..] == xs[1..] + ys;
      RunAppend(Step(c, xs[0]).0, xs[1..], ys);
    }
  }

  /** Such a caller, met with no error, reaches each entry in turn: after `n` of them the cursor stands
      `n` entries further, and past the last one only the end is reported. */
  lemma {:induction false} ReadAllReads(c: Cursor, guess: nat, n: nat)
    requires Proper(c) && n <= |c.entries| - c.next
    ensures var c' := Run(c, ReadAll(c, guess, n));
      Proper(c') && c'.entries == c.entries && c'.next == c.next + n && (n > 0 || !c.kept ==> !c'.kept)
    decreases n
  {
    hide Run, EntrySize, Info;
    if n == 0 {
      RunNothing(c);
    } else {
      var call := Read(guess, None, false);
      var (c1, r) := Step(c, call);
      if r.status == BufferTooSmall {
        var more := Read(r.size, None, false);
        var c2 := Step(c1, more).0;
        ReadAllReads(c2, guess, n - 1);
        RunAppend(c, [call, more], ReadAll(c2, guess, n - 1));
        RunTwo(c, call, more);
      } else {
        ReadAllReads(c1, guess, n - 1);
        RunAppend(c, [call], ReadAll(c1, guess, n - 1));
        RunOne(c, call);
      }
    }
  }

  lemma RunNothing(c: Cursor)
    requires Proper(c)
    ensures Run(c, []) == c
  {
  }

  lemma RunOne(c: Cursor, x: Call)
    requires Proper(c)
    ensures Run(c, [x]) == Step(c, x).0
  {
    assert [x][1..] == [];
  }

  lemma RunTwo(c: Cursor, x: Call, y: Call)
    requires Proper(c)
    ensures Run(c, [x, y]) == Step(Step(c, x).0, y).0
  {
    assert [x, y][0] == x && [x, y][1..] == [y];
    RunOne(Step(c, x).0, y);
  }

  /** Reading that way from the start gives the caller the whole directory, and then the end. */
  lemma WholeDirectory(c: Cursor, guess: nat)
    requires Proper(c) && c.next == 0
    ensures var calls := ReadAll(c, guess, |c.entries|);
      && Given(c, calls, []) == c.entries
      && Proper(Run(c, calls))
      && Step(Run(c, calls), Read(guess, None, false)).1 == Reply(Success, 0, [])
  {
    ReadAllReads(c, guess, |c.entries|);
    GivenIsPrefix(c, ReadAll(c, guess, |c.entries|));
  }

  // ----- the handle -----

  /** The stream below, from lkl_fdopendir; LKL is not part of this model. */
  class Stream {
    const entries: seq<Name>
    var pos: nat
    var failed: bool

    constructor (entries: seq<Name>)
      ensures this.entries == entries && pos == 0 && !failed
    {
      this.entries, pos, failed := entries, 0, false;
    }

    /** lkl_readdir: the next entry; null at the end or, as lkl_errdir then says, on an error. */
    method ReadDir(fails: bool) returns (entry: Option<Name>)
      requires pos <= |entries|
      modifies this
      ensures failed == fails
      ensures if fails || old(pos) == |entries| then entry == None && pos == old(pos)
              else entry == Some(entries[old(pos)]) && pos == old(pos) + 1
    {
      failed := fails;
      if fails || pos == |entries| { return None; }
      entry := Some(entries[pos]);
      pos := pos + 1;
    }

    /** lkl_rewinddir */
    method Rewind()
      modifies this
      ensures pos == 0 && !failed
    {
      pos, failed := 0, false;
    }
  }

  lemma SizeOfEntry(name: Name)
    ensures EntrySize(name) == SIZE_OF_EFI_FILE_INFO + (|name| + 1) * SIZE_OF_CHAR16 == |Info(name)|
  {
  }

  /** ZeroMem */
  method ZeroMem(buffer: array<Byte>, n: nat)
    requires n <= buffer.Length
    modifies buffer
    ensures buffer[..] == Word(0, n) + old(buffer[n..])
  {
    forall i | 0 <= i < n { buffer[i] := 0; }
    forall i | 0 <= i < n ensures Word(0, n)[i] == 0 { ZeroWord(n, i); }
  }

  lemma {:induction false} ZeroWord(n: nat, i: nat)
    requires i < n
    ensures Word(0, n)[i] == 0
  {
    if i > 0 { ZeroWord(n - 1, i - 1); }
  }

  /** A number of `k` bytes at offset `i`. */
  method StoreWord(buffer: array<Byte>, i: nat, n: nat, k: nat)
    requires i + k <= buffer.Length
    modifies buffer
    ensures buffer[..] == old(buffer[..i]) + Word(n, k) + old(buffer[i + k..])
  {
    hide Word, WrittenAt;
    var j, m := 0, n;
    ghost var a, w: seq<Byte> := buffer[..], [];
    NothingWritten(a, i);
    while j < k
      invariant j <= k && |w| == j && Word(n, k) == w + Word(m, k - j)
      invariant |a| == buffer.Length && WrittenAt(buffer[..], a, i, w)
    {
      NextByte(m, k - j);
      ByteMore(buffer[..], a, i, w, m % 256);
      buffer[i + j] := m % 256;
      w := w + [m % 256];
      j, m := j + 1, m / 256;
    }
    AllWritten(buffer[..], a, i, w);
  }

  lemma NextByte(n: nat, k: nat)
    requires k > 0
    ensures Word(n, k) == [n % 256] + Word(n / 256, k - 1)
  {
  }

  lemma ByteMore(b: seq<Byte>, a: seq<Byte>, i: nat, w: seq<Byte>, x: Byte)
    requires WrittenAt(b, a, i, w) && i + |w| < |a|
    ensures WrittenAt(b[i + |w| := x], a, i, w + [x])
  {
  }

  /** AsciiStrToUnicodeStr, to offset `i`. */
  method AsciiStrToUnicodeStr(name: Name, buffer: array<Byte>, i: nat)
    requires i + (|name| + 1) * SIZE_OF_CHAR16 <= buffer.Length
    modifies buffer
    ensures buffer[..] == old(buffer[..i]) + Text16(name) + old(buffer[i + |Text16(name)|..])
  {
    hide Word, Text16, WrittenAt;
    var j := 0;
    ghost var a, w: seq<Byte> := buffer[..], [];
    NothingWritten(a, i);
    assert name[0..] == name;
    while j < |name|
      invariant j <= |name| && |w| == 2 * j && Text16(name) == w + Text16(name[j..])
      invariant |a| == buffer.Length && WrittenAt(buffer[..], a, i, w)
    {
      NextChar(name, j);
      WriteChar(buffer, i + 2 * j, name[j] as int, a, w, i);
      w := w + Word(name[j] as int, 2);
      j := j + 1;
    }
    NoCharLeft(name);
    WriteChar(buffer, i + 2 * j, 0, a, w, i);
    AllWritten(buffer[..], a, i, Text16(name));
  }

  /** `b` is `a` with `w` written at offset `i`. */
  ghost predicate WrittenAt(b: seq<Byte>, a: seq<Byte>, i: nat, w: seq<Byte>) {
    i + |w| <= |a| && b == a[..i] + w + a[i + |w|..]
  }

  lemma NothingWritten(a: seq<Byte>, i: nat)
    requires i <= |a|
    ensures WrittenAt(a, a, i, [])
  {
  }

  lemma AllWritten(b: seq<Byte>, a: seq<Byte>, i: nat, w: seq<Byte>)
    requires WrittenAt(b, a, i, w)
    ensures i + |w| <= |a| && b == a[..i] + w + a[i + |w|..]
  {
  }

  /** One more character of two bytes. */
  method WriteChar(buffer: array<Byte>, at: nat, n: nat, ghost a: seq<Byte>, ghost w: seq<Byte>, ghost i: nat)
    requires at + 2 <= buffer.Length == |a| && at == i + |w| && WrittenAt(buffer[..], a, i, w)
    modifies buffer
    ensures WrittenAt(buffer[..], a, i, w + Word(n, 2))
  {
    hide Word;
    StoreWord(buffer, at, n, 2);
    OneWordMore(a, i, w, Word(n, 2));
  }

  lemma OneWordMore(a: seq<Byte>, i: nat, w: seq<Byte>, more: seq<Byte>)
    requires |more| == 2 && i + |w| + 2 <= |a|
    ensures var b := a[..i] + w + a[i + |w|..];
      b[..i + |w|] + more + b[i + |w| + 2..] == a[..i] + (w + more) + a[i + |w + more|..]
  {
  }

  lemma NextChar(name: Name, j: nat)
    requires j < |name|
    ensures Text16(name[j..]) == Word(name[j] as int, 2) + Text16(name[j + 1..])
  {
    hide Word;
    assert name[j..][1..] == name[j + 1..];
  }

  lemma NoCharLeft(name: Name)
    ensures Text16(name[|name|..]) == Word(0, 2)
  {
    hide Word;
  }

  /** The structure is written to the beginning of the buffer. */
  method WriteInfo(buffer: array<Byte>, name: Name, resultSize: nat)
    requires resultSize == EntrySize(name) <= buffer.Length
    modifies buffer
    ensures buffer[..] == Info(name) + old(buffer[resultSize..])
  {
    hide Info, EntrySize, Word, Text16;
    SizeOfEntry(name);
    ghost var a := buffer[..];
    ZeroMem(buffer, SIZE_OF_EFI_FILE_INFO);
    StoreWord(buffer, 0, resultSize, 8);
    assert buffer[..] == Word(resultSize, 8) + Word(0, SIZE_OF_EFI_FILE_INFO)[8..] + a[SIZE_OF_EFI_FILE_INFO..];
    ghost var b := buffer[..];
    AsciiStrToUnicodeStr(name, buffer, SIZE_OF_EFI_FILE_INFO);
    InfoLaidOut(a, b, buffer[..], name);
  }

  lemma InfoLaidOut(a: seq<Byte>, b: seq<Byte>, c: seq<Byte>, name: Name)
    requires EntrySize(name) <= |a|
    requires b == Word(EntrySize(name), 8) + Word(0, SIZE_OF_EFI_FILE_INFO)[8..] + a[SIZE_OF_EFI_FILE_INFO..]
    requires c == b[..SIZE_OF_EFI_FILE_INFO] + Text16(name) + b[EntrySize(name)..]
    ensures c == Info(name) + a[EntrySize(name)..]
  {
    hide Word, Text16;
    ZeroTail(SIZE_OF_EFI_FILE_INFO, 8);
    assert b[..SIZE_OF_EFI_FILE_INFO] == Word(EntrySize(name), 8) + Word(0, SIZE_OF_EFI_FILE_INFO - 8);
    assert b[EntrySize(name)..] == a[EntrySize(name)..];
  }

  lemma {:induction false} ZeroTail(n: nat, k: nat)
    requires k <= n
    ensures Word(0, n)[k..] == Word(0, n - k)
  {
    if k > 0 {
      ZeroTail(n - 1, k - 1);
      assert Word(0, n)[k..] == Word(0, n)[1..][k - 1..];
    }
  }

  class DirectoryFile {
    const entries: seq<Name>
    var dir: Stream?
    var dirEnt: Option<Name>

    ghost predicate Valid()
      reads this, if dir == null then {} else {dir}
    {
      && (dir == null ==> dirEnt == None)
      && (dir != null ==> dir.entries == entries && dir.pos <= |entries|)
      && (dirEnt.Some? ==> dir.pos > 0 && dirEnt.value == entries[dir.pos - 1])
    }

    ghost function View(): (c: Cursor)
      requires Valid()
      reads this, if dir == null then {} else {dir}
      ensures Proper(c)
    {
      var taken := if dir == null then 0 else dir.pos;
      Cursor(entries, dir != null, if dirEnt.Some? then taken - 1 else taken, dirEnt.Some?)
    }

    constructor (entries: seq<Name>)
      ensures Valid() && View() == Cursor(entries, false, 0, false)
    {
      this.entries, dir, dirEnt := entries, null, None;
    }

    /** LKLIFileReadDir, without the attributes of the file that LKLFillFileInfo adds. `size` is what *BufferSize is
        left at. */
    method ReadDir(bufferSize: nat, buffer: array<Byte>, openError: Option<int>, fails: bool)
      returns (status: Status, size: nat)
      requires Valid() && bufferSize <= buffer.Length
      modifies this, if dir == null then {} else {dir}, buffer
      ensures Valid() && (dir == old(dir) || fresh(dir))
      ensures var (c, r) := Step(old(View()), Read(bufferSize, openError, fails));
        && View() == c && status == r.status && size == r.size
        && |r.written| <= bufferSize && buffer[..] == r.written + old(buffer[|r.written|..])
    {
      hide Info, EntrySize;
      if dir == null {
        if openError.Some? { return OpenError(openError.value), bufferSize; }
        dir := new Stream(entries);
      }
      var entry := dirEnt;
      if dirEnt == None { entry := dir.ReadDir(fails); }
      if entry == None {
        if dir.failed { return DeviceError, 0; }
        dirEnt := None;
        return Success, 0;
      }
      var nameSize := (|entry.value| + 1) * SIZE_OF_CHAR16;
      var resultSize := SIZE_OF_EFI_FILE_INFO + nameSize;
      assert resultSize == EntrySize(entry.value) by { SizeOfEntry(entry.value); }
      if resultSize > bufferSize {
        dirEnt := entry;
        return BufferTooSmall, resultSize;
      }
      WriteInfo(buffer, entry.value, resultSize);
      dirEnt := None;
      return Success, bufferSize;
    }

    /** The directory branch of LKLSetPosition. */
    method SetPosition(position: nat) returns (status: Status)
      requires Valid()
      modifies this, if dir == null then {} else {dir}
      ensures Valid() && dir == old(dir)
      ensures var (c, r) := Step(old(View()), Call.SetPosition(position)); View() == c && status == r.status
    {
      if position == 0 {
        if dir != null { dir.Rewind(); }
        dirEnt := None;
        return Success;
      }
      return Unsupported;
    }
  }
}
