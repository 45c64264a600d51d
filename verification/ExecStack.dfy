/**
  The stack a new 64-bit program starts on: argument and environment strings at the top,
  below them the words of section 3.4.1 of the System V AMD64 ABI (argument count, argument
  pointers, environment pointers, auxiliary vector). Memory is a sequence of bytes.
 */
module ExecStack {
  import opened Options

  type Byte = x: int | 0 <= x < 256

  /** A C string: no byte of it is zero. */
  type Text = seq<Byte>

  ghost predicate IsText(t: Text) {
    forall i :: 0 <= i < |t| ==> t[i] != 0
  }

  // --------------------------------------------------------------------------- words

  function Power256(n: nat): (r: nat)
    ensures 0 < r
  {
    if n == 0 then 1 else 256 * Power256(n - 1)
  }

  /** A word as `n` bytes, the least significant first. */
  function Bytes(n: nat, w: int): (r: seq<Byte>)
    ensures |r| == n
  {
    if n == 0 then [] else [w % 256] + Bytes(n - 1, w / 256)
  }

  function Value(bs: seq<Byte>): nat {
    if bs == [] then 0 else bs[0] + 256 * Value(bs[1..])
  }

  lemma {:induction false} WordRoundTrip(n: nat, w: int)
    requires 0 <= w < Power256(n)
    ensures Value(Bytes(n, w)) == w
  {
    if n > 0 {
      WordRoundTrip(n - 1, w / 256);
      assert Bytes(n, w)[1..] == Bytes(n - 1, w / 256);
    }
  }

  const WORDS := 0x1_0000_0000_0000_0000

  lemma {:induction false} EightBytes()
    ensures Power256(8) == WORDS
  {
    assert Power256(4) == 0x1_0000_0000;
    assert Power256(8) == 256 * 256 * 256 * 256 * Power256(4);
  }

  function Words(ws: seq<int>): (r: seq<Byte>)
    ensures |r| == 8 * |ws|
  {
    if ws == [] then [] else Bytes(8, ws[0]) + Words(ws[1..])
  }

  lemma {:induction false} WordsAppend(a: seq<int>, b: seq<int>)
    ensures Words(a + b) == Words(a) + Words(b)
  {
    if a == [] {
      assert a + b == b;
    } else {
      assert (a + b)[1..] == a[1..] + b;
      WordsAppend(a[1..], b);
    }
  }

  lemma {:induction false} WordAt(ws: seq<int>, k: nat)
    requires k < |ws|
    ensures Words(ws)[8 * k..8 * k + 8] == Bytes(8, ws[k])
  {
    assert ws == ws[..k] + [ws[k]] + ws[k + 1..];
    WordsAppend(ws[..k] + [ws[k]], ws[k + 1..]);
    WordsAppend(ws[..k], [ws[k]]);
    assert Words([ws[k]]) == Bytes(8, ws[k]);
  }

  // -------------------------------------------------------------------------- strings

  /** The bytes of strings pushed one after the other: the last lies lowest. */
  function Strings(l: seq<Text>): seq<Byte> {
    if l == [] then [] else l[|l| - 1] + [0] + Strings(l[..|l| - 1])
  }

  lemma {:induction false} StringsMore(l: seq<Text>, t: Text)
    ensures Strings(l + [t]) == t + [0] + Strings(l)
  {
    assert (l + [t])[..|l|] == l;
  }

  /** The strings pushed after the first `k` lie below them. */
  lemma {:induction false} StringsBelow(l: seq<Text>, k: nat)
    requires k <= |l|
    ensures |Strings(l[..k])| <= |Strings(l)| && Strings(l)[|Strings(l)| - |Strings(l[..k])|..] == Strings(l[..k])
  {
    if k == |l| {
      assert l[..k] == l;
    } else {
      var m := l[..|l| - 1];
      StringsBelow(m, k);
      assert m[..k] == l[..k];
    }
  }

  /** Where the string `i` of those pushed down from `stack` begins. */
  function Address(stack: int, l: seq<Text>, i: nat): int
    requires i < |l|
  {
    stack - |Strings(l[..i + 1])|
  }

  // ------------------------------------------------------------------ the start-up image

  datatype Package = Package(entry: nat, phaddr: nat, phentsize: nat, phnum: nat)

  const AT_NULL := 0
  const AT_PHDR := 3
  const AT_PHENT := 4
  const AT_PHNUM := 5
  const AT_ENTRY := 9

  function Auxiliary(pkg: Package): seq<int> {
    [AT_PHNUM, pkg.phnum, AT_PHENT, pkg.phentsize, AT_PHDR, pkg.phaddr, AT_ENTRY, pkg.entry, AT_NULL, 0]
  }

  /** The addresses of the strings `k` up to `n`. */
  function Addresses(stack: int, l: seq<Text>, k: nat, n: nat): (r: seq<int>)
    requires k <= n <= |l|
    ensures |r| == n - k && forall i :: 0 <= i < n - k ==> r[i] == Address(stack, l, k + i)
  {
    seq(n - k, i requires 0 <= i < n - k => Address(stack, l, k + i))
  }

  function StartWords(stack: int, argp: seq<Text>, envp: seq<Text>, pkg: Package): seq<int> {
    var l := envp + argp;
    [|argp|] + Addresses(stack, l, |envp|, |l|) + [0] + Addresses(stack, l, 0, |envp|) + [0] + Auxiliary(pkg)
  }

  ghost predicate Lies(mem: seq<Byte>, a: int, data: seq<Byte>) {
    0 <= a && a + |data| <= |mem| && mem[a..a + |data|] == data
  }

  /** The words at a 16-byte boundary, the strings above them up to `stack`. */
  ghost predicate Image(mem: seq<Byte>, sp: int, stack: int, argp: seq<Text>, envp: seq<Text>, pkg: Package) {
    var words, strings := Words(StartWords(stack, argp, envp, pkg)), Strings(envp + argp);
    && sp % 16 == 0 && Lies(mem, sp, words) && Lies(mem, stack - |strings|, strings)
    && 0 < sp + |words| <= stack - |strings|
  }

  // ------------------------------------------------------------- what a program makes of it

  function Word(mem: seq<Byte>, a: int): int
    requires 0 <= a && a + 8 <= |mem|
  {
    Value(mem[a..a + 8])
  }

  function TextAt(mem: seq<Byte>, a: int): Text
    decreases |mem| - a
  {
    if a < 0 || a >= |mem| || mem[a] == 0 then [] else [mem[a]] + TextAt(mem, a + 1)
  }

  /** The pointers up to a null one. */
  function Pointers(mem: seq<Byte>, a: int): seq<int>
    decreases |mem| - a
  {
    if a < 0 || a + 8 > |mem| || Word(mem, a) == 0 then [] else [Word(mem, a)] + Pointers(mem, a + 8)
  }

  /** The auxiliary entries up to a null one. */
  function Pairs(mem: seq<Byte>, a: int): seq<(int, int)>
    decreases |mem| - a
  {
    if a < 0 || a + 16 > |mem| || Word(mem, a) == AT_NULL then []
    else [(Word(mem, a), Word(mem, a + 8))] + Pairs(mem, a + 16)
  }

  function Texts(mem: seq<Byte>, ps: seq<int>): (r: seq<Text>)
    ensures |r| == |ps| && forall i :: 0 <= i < |ps| ==> r[i] == TextAt(mem, ps[i])
  {
    seq(|ps|, i requires 0 <= i < |ps| => TextAt(mem, ps[i]))
  }

  datatype Started = Started(argv: seq<Text>, envp: seq<Text>, aux: seq<(int, int)>)

  function Decode(mem: seq<Byte>, sp: int): Option<Started> {
    if sp < 0 || sp + 8 > |mem| then None
    else
      var argc := Word(mem, sp);
      var argv := Pointers(mem, sp + 8);
      if |argv| != argc then None
      else
        var envp := Pointers(mem, sp + 8 * (argc + 2));
        Some(Started(Texts(mem, argv), Texts(mem, envp), Pairs(mem, sp + 8 * (argc + |envp| + 3))))
  }

  // ----------------------------------------------------------------------- it is read back

  lemma {:induction false} WordIn(mem: seq<Byte>, sp: int, ws: seq<int>, k: nat)
    requires Lies(mem, sp, Words(ws)) && k < |ws| && 0 <= ws[k] < WORDS
    ensures 0 <= sp + 8 * k && sp + 8 * k + 8 <= |mem| && Word(mem, sp + 8 * k) == ws[k]
  {
    WordAt(ws, k);
    assert mem[sp + 8 * k..sp + 8 * k + 8] == mem[sp..sp + |Words(ws)|][8 * k..8 * k + 8];
    EightBytes();
    WordRoundTrip(8, ws[k]);
  }

  lemma {:induction false} TextIs(mem: seq<Byte>, a: int, t: Text)
    requires Lies(mem, a, t + [0]) && IsText(t)
    ensures TextAt(mem, a) == t
    decreases |t|
  {
    var s := t + [0];
    assert mem[a] == mem[a..a + |s|][0] == s[0];
    if t != [] {
      assert mem[a + 1..a + |s|] == mem[a..a + |s|][1..] == t[1..] + [0];
      TextIs(mem, a + 1, t[1..]);
    }
  }

  lemma {:induction false} Slice(m: seq<Byte>, x: int, y: int, a: int, b: int)
    requires 0 <= x <= a <= b <= y <= |m|
    ensures m[a..b] == m[x..y][a - x..b - x]
  {
    forall i | 0 <= i < b - a ensures m[a..b][i] == m[x..y][a - x..b - x][i] {
    }
  }

  lemma {:induction false} StringFirst(l: seq<Text>, i: nat)
    requires i < |l|
    ensures var part := Strings(l[..i + 1]);
            && |part| <= |Strings(l)| && Strings(l)[|Strings(l)| - |part|..] == part
            && |l[i]| + 1 <= |part| && part[..|l[i]| + 1] == l[i] + [0]
  {
    StringsBelow(l, i + 1);
    assert l[..i + 1] == l[..i] + [l[i]];
    StringsMore(l[..i], l[i]);
  }

  lemma {:induction false} StringAt(mem: seq<Byte>, stack: int, l: seq<Text>, i: nat)
    requires Lies(mem, stack - |Strings(l)|, Strings(l)) && i < |l|
    ensures Lies(mem, Address(stack, l, i), l[i] + [0]) && stack - |Strings(l)| <= Address(stack, l, i)
  {
    StringFirst(l, i);
    hide Strings;
    var all, part := Strings(l), Strings(l[..i + 1]);
    var a := Address(stack, l, i);
    Slice(mem, stack - |all|, stack, a, stack);
    Slice(mem, a, stack, a, a + |l[i]| + 1);
    assert mem[a..stack] == part;
  }

  lemma {:induction false} PointersIs(mem: seq<Byte>, sp: int, ws: seq<int>, k: nat, n: nat)
    requires Lies(mem, sp, Words(ws)) && k + n < |ws| && ws[k + n] == 0
    requires forall i :: k <= i < k + n ==> 0 < ws[i] < WORDS
    ensures Pointers(mem, sp + 8 * k) == ws[k..k + n]
    decreases n
  {
    WordIn(mem, sp, ws, k);
    if n > 0 {
      PointersIs(mem, sp, ws, k + 1, n - 1);
      assert sp + 8 * k + 8 == sp + 8 * (k + 1);
    }
  }

  /** The strings at their addresses. */
  lemma {:induction false} TextsAre(mem: seq<Byte>, stack: int, l: seq<Text>, k: nat, n: nat)
    requires Lies(mem, stack - |Strings(l)|, Strings(l)) && k <= n <= |l| && (forall t :: t in l ==> IsText(t))
    ensures Texts(mem, Addresses(stack, l, k, n)) == l[k..n]
  {
    var ps := Addresses(stack, l, k, n);
    forall i | 0 <= i < |ps| ensures TextAt(mem, ps[i]) == l[k..n][i] {
      StringAt(mem, stack, l, k + i);
      assert l[k + i] in l;
      TextIs(mem, ps[i], l[k + i]);
    }
  }

  lemma {:induction false} AddressesFit(mem: seq<Byte>, stack: int, l: seq<Text>, k: nat, n: nat)
    requires Lies(mem, stack - |Strings(l)|, Strings(l)) && k <= n <= |l| && |mem| <= WORDS && 0 < stack - |Strings(l)|
    ensures forall i :: 0 <= i < n - k ==> 0 < Addresses(stack, l, k, n)[i] < WORDS
  {
    forall i | 0 <= i < n - k ensures 0 < Addresses(stack, l, k, n)[i] < WORDS {
      StringAt(mem, stack, l, k + i);
    }
  }

  lemma {:induction false} PairIs(mem: seq<Byte>, sp: int, ws: seq<int>, k: nat)
    requires Lies(mem, sp, Words(ws)) && k + 1 < |ws| && 0 <= ws[k] < WORDS && 0 <= ws[k + 1] < WORDS
    ensures Pairs(mem, sp + 8 * k) ==
            if ws[k] == AT_NULL then [] else [(ws[k], ws[k + 1])] + Pairs(mem, sp + 8 * (k + 2))
  {
    WordIn(mem, sp, ws, k);
    WordIn(mem, sp, ws, k + 1);
    hide Lies, Words, Word;
    assert sp + 8 * k + 8 == sp + 8 * (k + 1) && sp + 8 * k + 16 == sp + 8 * (k + 2);
  }

  function AuxiliaryPairs(pkg: Package): seq<(int, int)> {
    [(AT_PHNUM, pkg.phnum), (AT_PHENT, pkg.phentsize), (AT_PHDR, pkg.phaddr), (AT_ENTRY, pkg.entry)]
  }

  ghost predicate WordSized(pkg: Package) {
    pkg.entry < WORDS && pkg.phaddr < WORDS && pkg.phentsize < WORDS && pkg.phnum < WORDS
  }

  lemma {:induction false} PairsAre(mem: seq<Byte>, sp: int, ws: seq<int>, k: nat, pkg: Package)
    requires Lies(mem, sp, Words(ws)) && k + 10 == |ws| && ws[k..] == Auxiliary(pkg) && WordSized(pkg)
    ensures Pairs(mem, sp + 8 * k) == AuxiliaryPairs(pkg)
  {
    hide Lies, Words, Pairs;
    assert forall i :: 0 <= i < 10 ==> ws[k + i] == Auxiliary(pkg)[i];
    PairIs(mem, sp, ws, k);
    PairIs(mem, sp, ws, k + 2);
    PairIs(mem, sp, ws, k + 4);
    PairIs(mem, sp, ws, k + 6);
    PairIs(mem, sp, ws, k + 8);
  }

  /** Where the parts of the start-up words are. */
  lemma {:induction false} StartParts(stack: int, argp: seq<Text>, envp: seq<Text>, pkg: Package)
    ensures var l, ws := envp + argp, StartWords(stack, argp, envp, pkg);
            var n, e := |argp|, |envp|;
            && |ws| == n + e + 13 && ws[0] == n && ws[1 + n] == 0 && ws[n + 2 + e] == 0
            && ws[1..1 + n] == Addresses(stack, l, e, |l|) && ws[n + 2..n + 2 + e] == Addresses(stack, l, 0, e)
            && ws[n + e + 3..] == Auxiliary(pkg)
  {
    hide Addresses, Address;
  }

  lemma {:induction false} PointersAre(mem: seq<Byte>, sp: int, ws: seq<int>, k: nat, ps: seq<int>)
    requires Lies(mem, sp, Words(ws)) && k + |ps| < |ws| && ws[k..k + |ps|] == ps && ws[k + |ps|] == 0
    requires forall i :: 0 <= i < |ps| ==> 0 < ps[i] < WORDS
    ensures Pointers(mem, sp + 8 * k) == ps
  {
    forall i | k <= i < k + |ps| ensures 0 < ws[i] < WORDS {
      assert ws[i] == ws[k..k + |ps|][i - k];
    }
    PointersIs(mem, sp, ws, k, |ps|);
  }

  /** A program that reads its start-up stack as the ABI says finds the arguments, the
      environment and the auxiliary vector it was started with. */
  lemma {:induction false} AuxiliaryTags(pkg: Package)
    ensures AuxiliaryPairs(pkg) == [(5, pkg.phnum), (4, pkg.phentsize), (3, pkg.phaddr), (9, pkg.entry)]
  {
  }

  lemma {:induction false} ImageDecodes(mem: seq<Byte>, sp: int, stack: int, argp: seq<Text>, envp: seq<Text>,
                                        pkg: Package)
    requires Image(mem, sp, stack, argp, envp, pkg) && |mem| <= WORDS && |argp| < WORDS
    requires (forall t :: t in argp ==> IsText(t)) && (forall t :: t in envp ==> IsText(t))
    requires WordSized(pkg)
    ensures Decode(mem, sp) ==
            Some(Started(argp, envp, [(5, pkg.phnum), (4, pkg.phentsize), (3, pkg.phaddr), (9, pkg.entry)]))
  {
    hide Words, Strings, Lies, Word, Pointers, Pairs, Texts, StartWords, Addresses, WordSized, AuxiliaryPairs;
    AuxiliaryTags(pkg);
    var l, ws := envp + argp, StartWords(stack, argp, envp, pkg);
    var n, e := |argp|, |envp|;
    StartParts(stack, argp, envp, pkg);
    AddressesFit(mem, stack, l, e, |l|);
    AddressesFit(mem, stack, l, 0, e);
    TextsAre(mem, stack, l, e, |l|);
    TextsAre(mem, stack, l, 0, e);
    assert l[e..|l|] == argp && l[0..e] == envp;
    WordIn(mem, sp, ws, 0);
    assert sp + 8 * 0 == sp && sp + 8 * 1 == sp + 8;
    PointersAre(mem, sp, ws, 1, Addresses(stack, l, e, |l|));
    PointersAre(mem, sp, ws, n + 2, Addresses(stack, l, 0, e));
    PairsAre(mem, sp, ws, n + e + 3, pkg);
  }

  // ---------------------------------------------------------------------- laying it out

  lemma {:induction false} LiesJoin(mem: seq<Byte>, a: int, d: seq<Byte>, e: seq<Byte>)
    requires Lies(mem, a, d) && Lies(mem, a + |d|, e)
    ensures Lies(mem, a, d + e)
  {
    assert mem[a..a + |d + e|] == mem[a..a + |d|] + mem[a + |d|..a + |d| + |e|];
  }

  /** What lies within a part of memory that did not change still lies there. */
  lemma {:induction false} LiesStill(was: seq<Byte>, mem: seq<Byte>, from: int, to: int, a: int, d: seq<Byte>)
    requires |was| == |mem| && 0 <= from <= to <= |mem| && was[from..to] == mem[from..to]
    requires Lies(was, a, d) && from <= a && a + |d| <= to
    ensures Lies(mem, a, d)
  {
    Slice(mem, from, to, a, a + |d|);
    Slice(was, from, to, a, a + |d|);
  }

  /** Strings pushed so far, with the memory around them as it was. */
  ghost predicate Pushed(mem: seq<Byte>, was: seq<Byte>, stack: int, p: int, l: seq<Text>) {
    && |mem| == |was| && Lies(mem, p, Strings(l)) && p + |Strings(l)| == stack
    && mem[..p] == was[..p] && mem[stack..] == was[stack..]
  }

  /** Words laid out so far below `top`, with the memory around them as it was. */
  ghost predicate Laid(mem: seq<Byte>, was: seq<Byte>, top: int, p: int, ws: seq<int>) {
    && |mem| == |was| && Lies(mem, p, Words(ws)) && p + 8 * |ws| == top
    && mem[..p] == was[..p] && mem[top..] == was[top..]
  }

  function Put(mem: seq<Byte>, a: int, data: seq<Byte>): seq<Byte>
    requires 0 <= a && a + |data| <= |mem|
  {
    mem[..a] + data + mem[a + |data|..]
  }

  lemma {:induction false} PutIs(mem: seq<Byte>, a: int, data: seq<Byte>)
    requires 0 <= a && a + |data| <= |mem|
    ensures var m := Put(mem, a, data);
            |m| == |mem| && Lies(m, a, data) && m[..a] == mem[..a] && m[a + |data|..] == mem[a + |data|..]
  {
  }

  lemma {:induction false} PushOne(mem: seq<Byte>, was: seq<Byte>, stack: int, p: int, l: seq<Text>, t: Text)
    requires Pushed(mem, was, stack, p, l) && |t| + 1 <= p
    ensures var q := p - (|t| + 1);
            Pushed(Put(mem, q, t + [0]), was, stack, q, l + [t])
  {
    var q := p - (|t| + 1);
    var m := Put(mem, q, t + [0]);
    PutIs(mem, q, t + [0]);
    StringsMore(l, t);
    assert m[p..|m|] == mem[p..|m|];
    LiesStill(mem, m, p, |m|, p, Strings(l));
    LiesJoin(m, q, t + [0], Strings(l));
    hide Lies;
    assert m[..q] == mem[..p][..q] && was[..q] == was[..p][..q];
    assert m[stack..] == m[p..][stack - p..] && mem[stack..] == mem[p..][stack - p..];
  }

  lemma {:induction false} LayOne(mem: seq<Byte>, was: seq<Byte>, top: int, p: int, ws: seq<int>, w: int)
    requires Laid(mem, was, top, p, ws) && 8 <= p
    ensures Laid(Put(mem, p - 8, Bytes(8, w)), was, top, p - 8, [w] + ws)
  {
    var q := p - 8;
    var m := Put(mem, q, Bytes(8, w));
    PutIs(mem, q, Bytes(8, w));
    assert m[p..|m|] == mem[p..|m|];
    LiesStill(mem, m, p, |m|, p, Words(ws));
    LiesJoin(m, q, Bytes(8, w), Words(ws));
    assert ([w] + ws)[1..] == ws;
    assert Words([w] + ws) == Bytes(8, w) + Words(ws);
    hide Lies, Words, Bytes;
    assert m[..q] == mem[..p][..q] && was[..q] == was[..p][..q];
    assert m[top..] == m[p..][top - p..] && mem[top..] == mem[p..][top - p..];
  }

  /** The user's memory while the stack is laid out. */
  class UserMemory {
    var mem: seq<Byte>

    method PushStrings(l: seq<Text>, p: int, stack: int, ghost was: seq<Byte>, ghost before: seq<Text>) returns (q: int)
      requires Pushed(mem, was, stack, p, before) && |Strings(before + l)| <= stack
      modifies this
      ensures Pushed(mem, was, stack, q, before + l)
    {
      q := p;
      var i := 0;
      assert before + l[..0] == before;
      while i < |l|
        invariant i <= |l| && Pushed(mem, was, stack, q, before + l[..i])
      {
        assert before + l[..i + 1] == before + l[..i] + [l[i]];
        StringsMore(before + l[..i], l[i]);
        StringsBelow(before + l, |before| + i + 1);
        assert (before + l)[..|before| + i + 1] == before + l[..i + 1];
        PushOne(mem, was, stack, q, before + l[..i], l[i]);
        q := q - (|l[i]| + 1);
        mem := Put(mem, q, l[i] + [0]);
        i := i + 1;
      }
      assert before + l[..|l|] == before + l;
    }

    method PushWord(p: int, w: int, top: int, ghost was: seq<Byte>, ghost ws: seq<int>) returns (q: int)
      requires Laid(mem, was, top, p, ws) && 8 <= p
      modifies this
      ensures q == p - 8 && Laid(mem, was, top, q, [w] + ws)
    {
      LayOne(mem, was, top, p, ws, w);
      q := p - 8;
      mem := Put(mem, q, Bytes(8, w));
    }
  
    /** The pointers to strings `k` up to `n`, into the words below `p`. */
    method PushPointers(l: seq<Text>, k: nat, n: nat, p: int, cursor: int, stack: int,
                        top: int, ghost was: seq<Byte>, ghost ws: seq<int>)
      returns (q: int, c: int)
      requires Laid(mem, was, top, p, ws) && k <= n <= |l| && 8 * (n - k) <= p && cursor == stack - |Strings(l[..k])|
      modifies this
      ensures q == p - 8 * (n - k) && c == stack - |Strings(l[..n])|
      ensures Laid(mem, was, top, q, Addresses(stack, l, k, n) + ws)
    {
      hide Partly, Strings, Words, Bytes, Address;
      q, c := p - 8 * (n - k), cursor;
      var i := k;
      PointersNone(mem, was, top, p, ws, stack, l, k, q);
      while i < n
        invariant k <= i <= n && c == stack - |Strings(l[..i])|
        invariant Partly(mem, was, top, p, ws, q, Addresses(stack, l, k, i))
      {
        assert l[..i + 1] == l[..i] + [l[i]];
        StringsMore(l[..i], l[i]);
        c := c - (|l[i]| + 1);
        PointerFits(mem, was, top, p, ws, q, Addresses(stack, l, k, i));
        PointerOne(mem, was, top, p, ws, q, Addresses(stack, l, k, i), c);
        AddressesMore(stack, l, k, i);
        mem := Put(mem, q + 8 * (i - k), Bytes(8, c));
        i := i + 1;
      }
      PointersAll(mem, was, top, p, ws, q, Addresses(stack, l, k, n));
    }

    method PushEntry(p: int, tag: int, value: int, top: int, ghost was: seq<Byte>, ghost ws: seq<int>) returns (q: int)
      requires Laid(mem, was, top, p, ws) && 16 <= p
      modifies this
      ensures q == p - 16 && Laid(mem, was, top, q, [tag, value] + ws)
    {
      hide Laid;
      q := PushWord(p, value, top, was, ws);
      q := PushWord(q, tag, top, was, [value] + ws);
      assert [tag] + ([value] + ws) == [tag, value] + ws;
    }

    method PushAuxiliary(p: int, pkg: Package, ghost was: seq<Byte>) returns (q: int)
      requires Laid(mem, was, p, p, []) && 80 <= p
      modifies this
      ensures q == p - 80 && Laid(mem, was, p, q, Auxiliary(pkg))
    {
      hide Laid;
      q := PushEntry(p, AT_NULL, 0, p, was, []);
      assert [AT_NULL, 0] + [] == [AT_NULL, 0];
      q := PushEntry(q, AT_ENTRY, pkg.entry, p, was, [AT_NULL, 0]);
      q := PushEntry(q, AT_PHDR, pkg.phaddr, p, was, [AT_ENTRY, pkg.entry] + [AT_NULL, 0]);
      q := PushEntry(q, AT_PHENT, pkg.phentsize, p, was,
                     [AT_PHDR, pkg.phaddr] + ([AT_ENTRY, pkg.entry] + [AT_NULL, 0]));
      q := PushEntry(q, AT_PHNUM, pkg.phnum, p, was,
                     [AT_PHENT, pkg.phentsize] + ([AT_PHDR, pkg.phaddr] + ([AT_ENTRY, pkg.entry] + [AT_NULL, 0])));
      AuxiliaryOrder(pkg);
    }

    /** All the words below `top`. */
    method LayWords(top: int, argp: seq<Text>, envp: seq<Text>, pkg: Package, stack: int,
                    ghost was: seq<Byte>) returns (sp: int)
      requires Laid(mem, was, top, top, []) && 8 * (|argp| + |envp| + 13) <= top
      modifies this
      ensures sp == top - 8 * (|argp| + |envp| + 13) && Laid(mem, was, top, sp, StartWords(stack, argp, envp, pkg))
    {
      hide Laid, Strings, Addresses;
      var l := envp + argp;
      var n, e := |argp|, |envp|;
      StringsNone(l);
      ghost var aux := Auxiliary(pkg);
      sp := PushAuxiliary(top, pkg, was);
      sp := PushWord(sp, 0, top, was, aux);
      ghost var envs := Addresses(stack, l, 0, e);
      var c;
      sp, c := PushPointers(l, 0, e, sp, stack, stack, top, was, [0] + aux);
      sp := PushWord(sp, 0, top, was, envs + ([0] + aux));
      ghost var args := Addresses(stack, l, e, |l|);
      sp, c := PushPointers(l, e, |l|, sp, c, stack, top, was, [0] + (envs + ([0] + aux)));
      sp := PushWord(sp, n, top, was, args + ([0] + (envs + ([0] + aux))));
      assert StartWords(stack, argp, envp, pkg) == [n] + (args + ([0] + (envs + ([0] + aux))));
    }

    /** `copyout_args`, where the stack has room: the image the ABI describes, and nothing
        outside it changed. */
    method CopyoutArgs(stack: int, argp: seq<Text>, envp: seq<Text>, pkg: Package) returns (sp: int)
      requires |Strings(envp + argp)| + 8 * (|argp| + |envp| + 14) + 16 <= stack <= |mem|
      modifies this
      ensures Image(mem, sp, stack, argp, envp, pkg) && sp % 16 == 0
      ensures 0 <= sp <= stack <= |mem| == |old(mem)| && mem[..sp] == old(mem)[..sp]
      ensures mem[stack..] == old(mem)[stack..]
    {
      hide Strings, Words, StartWords;
      ghost var was := mem;
      ghost var l := envp + argp;
      NothingPushed(mem, stack);
      StringsBelow(l, |envp|);
      assert l[..|envp|] == envp && [] + envp == envp;
      var p := PushStrings(envp, stack, stack, was, []);
      p := PushStrings(argp, p, stack, was, envp);
      ghost var strung := mem;
      var top := p - p % 16;
      if (|argp| + |envp| + 3) % 2 != 0 {
        top := top - 8;
      }
      NothingLaid(mem, top);
      sp := LayWords(top, argp, envp, pkg, stack, strung);
      ImageIs(was, strung, mem, stack, p, top, sp, argp, envp, pkg);
    }
  }

  lemma {:induction false} AuxiliaryOrder(pkg: Package)
    ensures Auxiliary(pkg) ==
            [AT_PHNUM, pkg.phnum]
            + ([AT_PHENT, pkg.phentsize] + ([AT_PHDR, pkg.phaddr] + ([AT_ENTRY, pkg.entry] + [AT_NULL, 0])))
  {
  }

  lemma {:induction false} StringsNone(l: seq<Text>)
    ensures Strings(l[..0]) == []
  {
  }

  lemma {:induction false} NothingPushed(mem: seq<Byte>, stack: int)
    requires 0 <= stack <= |mem|
    ensures Pushed(mem, mem, stack, stack, [])
  {
  }

  lemma {:induction false} NothingLaid(mem: seq<Byte>, top: int)
    requires 0 <= top <= |mem|
    ensures Laid(mem, mem, top, top, [])
  {
  }

  /** The words laid out below the strings leave the strings as they are. */
  lemma {:induction false} ImageIs(was: seq<Byte>, strung: seq<Byte>, mem: seq<Byte>, stack: int, p: int, top: int,
                                   sp: int,
                                   argp: seq<Text>, envp: seq<Text>, pkg: Package)
    requires Pushed(strung, was, stack, p, envp + argp)
    requires Laid(mem, strung, top, sp, StartWords(stack, argp, envp, pkg))
    requires top == p - p % 16 - (if (|argp| + |envp| + 3) % 2 != 0 then 8 else 0)
    requires sp == top - 8 * (|argp| + |envp| + 13)
    requires 0 < top && stack <= |was|
    ensures Image(mem, sp, stack, argp, envp, pkg)
    ensures 0 <= sp <= stack <= |mem| == |was| && mem[..sp] == was[..sp] && mem[stack..] == was[stack..]
  {
    hide Strings, StartWords;
    assert strung[top..|mem|] == mem[top..|mem|];
    LiesStill(strung, mem, top, |mem|, p, Strings(envp + argp));
    assert sp % 16 == 0;
    assert strung[..sp] == strung[..p][..sp] && was[..sp] == was[..p][..sp];
    assert mem[stack..] == mem[top..][stack - top..] && strung[stack..] == strung[top..][stack - top..];
  }

  lemma {:induction false} AddressesMore(stack: int, l: seq<Text>, k: nat, i: nat)
    requires k <= i < |l|
    ensures Addresses(stack, l, k, i + 1) == Addresses(stack, l, k, i) + [stack - |Strings(l[..i + 1])|]
  {
  }

  lemma {:induction false} PointerFits(mem: seq<Byte>, was: seq<Byte>, top: int, p: int, ws: seq<int>, q: int,
                                       ps: seq<int>)
    requires Partly(mem, was, top, p, ws, q, ps)
    ensures 0 <= q && p <= |mem|
  {
  }

  /** Pointers stored upwards from `q`, not yet up to `p`, where the words laid out begin. */
  ghost predicate Partly(mem: seq<Byte>, was: seq<Byte>, top: int, p: int, ws: seq<int>, q: int, ps: seq<int>) {
    && |mem| == |was| && Lies(mem, p, Words(ws)) && p + 8 * |ws| == top
    && Lies(mem, q, Words(ps)) && q + 8 * |ps| <= p
    && mem[..q] == was[..q] && mem[top..] == was[top..]
  }

  lemma {:induction false} PointersNone(mem: seq<Byte>, was: seq<Byte>, top: int, p: int, ws: seq<int>, stack: int,
                                        l: seq<Text>, k: nat, q: int)
    requires Laid(mem, was, top, p, ws) && k <= |l| && 0 <= q <= p
    ensures Partly(mem, was, top, p, ws, q, Addresses(stack, l, k, k))
  {
    assert mem[..q] == mem[..p][..q] && was[..q] == was[..p][..q];
    assert mem[q..q] == Words(Addresses(stack, l, k, k));
  }

  lemma {:induction false} PointerOne(mem: seq<Byte>, was: seq<Byte>, top: int, p: int, ws: seq<int>, q: int,
                                      ps: seq<int>, w: int)
    requires Partly(mem, was, top, p, ws, q, ps) && q + 8 * |ps| + 8 <= p
    ensures Partly(Put(mem, q + 8 * |ps|, Bytes(8, w)), was, top, p, ws, q, ps + [w])
  {
    hide Bytes, Put;
    var a := q + 8 * |ps|;
    var m := Put(mem, a, Bytes(8, w));
    PutIs(mem, a, Bytes(8, w));
    assert m[a + 8..|m|] == mem[a + 8..|m|];
    LiesStill(mem, m, a + 8, |m|, p, Words(ws));
    assert m[0..a] == m[..a] == mem[..a] == mem[0..a];
    LiesStill(mem, m, 0, a, q, Words(ps));
    LiesJoin(m, q, Words(ps), Bytes(8, w));
    WordsAppend(ps, [w]);
    assert Words([w]) == Bytes(8, w);
    hide Lies, Words;
    assert m[..q] == m[..a][..q] && mem[..q] == mem[..a][..q];
    assert m[top..] == m[a + 8..][top - a - 8..] && mem[top..] == mem[a + 8..][top - a - 8..];
  }

  lemma {:induction false} PointersAll(mem: seq<Byte>, was: seq<Byte>, top: int, p: int, ws: seq<int>, q: int,
                                       ps: seq<int>)
    requires Partly(mem, was, top, p, ws, q, ps) && q + 8 * |ps| == p
    ensures Laid(mem, was, top, q, ps + ws)
  {
    LiesJoin(mem, q, Words(ps), Words(ws));
    WordsAppend(ps, ws);
  }
}
