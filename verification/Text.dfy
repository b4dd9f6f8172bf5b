/** Text as the line scanners, trimmers and list splitters of certhold see it. */
module Text {
  import opened Wrappers

  predicate NoBreak(s: string) {
    '\n' !in s
  }

  /** A file body that is empty or ends its last line. */
  predicate Terminated(t: string) {
    t == "" || t[|t| - 1] == '\n'
  }

  /** The index of the first newline, or the length. */
  function FirstBreak(t: string): (n: nat)
    ensures n <= |t|
  {
    if t == "" || t[0] == '\n' then 0 else 1 + FirstBreak(t[1..])
  }

  lemma {:induction false} FirstBreakSplits(t: string)
    ensures NoBreak(t[..FirstBreak(t)])
    ensures FirstBreak(t) < |t| ==> t[FirstBreak(t)] == '\n'
  {
    if t != "" && t[0] != '\n' {
      FirstBreakSplits(t[1..]);
      assert t[..FirstBreak(t)] == [t[0]] + t[1..][..FirstBreak(t[1..])];
    }
  }

  /** The lines the scanner yields: a final line without newline counts, an empty rest does not. */
  function Lines(t: string): seq<string>
    decreases |t|
  {
    if t == "" then []
    else
      var n := FirstBreak(t);
      [t[..n]] + Lines(t[if n < |t| then n + 1 else n..])
  }

  lemma {:induction false} LinesHaveNoBreak(t: string)
    ensures forall l :: l in Lines(t) ==> NoBreak(l)
    decreases |t|
  {
    if t != "" {
      var n := FirstBreak(t);
      FirstBreakSplits(t);
      LinesHaveNoBreak(t[if n < |t| then n + 1 else n..]);
    }
  }

  function Unlines(ls: seq<string>): string {
    if ls == [] then "" else ls[0] + "\n" + Unlines(ls[1..])
  }

  lemma {:induction false} FirstBreakIs(l: string, rest: string)
    requires NoBreak(l)
    ensures FirstBreak(l + "\n" + rest) == |l|
  {
    if l != "" {
      assert (l + "\n" + rest)[1..] == l[1..] + "\n" + rest;
      FirstBreakIs(l[1..], rest);
    }
  }

  lemma {:induction false} FirstBreakNone(l: string)
    requires NoBreak(l)
    ensures FirstBreak(l) == |l|
  {
    if l != "" {
      FirstBreakNone(l[1..]);
    }
  }

  lemma LinesCons(l: string, rest: string)
    requires NoBreak(l)
    ensures Lines(l + "\n" + rest) == [l] + Lines(rest)
  {
    FirstBreakIs(l, rest);
    var t := l + "\n" + rest;
    assert t[..|l|] == l;
    assert t[|l| + 1..] == rest;
  }

  lemma UnlinesCons(l: string, ls: seq<string>)
    ensures Unlines([l] + ls) == l + "\n" + Unlines(ls)
  {
    assert ([l] + ls)[1..] == ls;
  }

  lemma Regroup(l: string, rest: string, b: string)
    ensures l + "\n" + rest + b == l + "\n" + (rest + b)
  {
  }

  /** A body with a newline is its first line and the body after it. */
  lemma FirstLine(t: string) returns (l: string, rest: string)
    requires FirstBreak(t) < |t|
    ensures t == l + "\n" + rest && NoBreak(l) && |rest| < |t|
    ensures Lines(t) == [l] + Lines(rest)
    ensures Terminated(t) == Terminated(rest)
  {
    var n := FirstBreak(t);
    FirstBreakSplits(t);
    l, rest := t[..n], t[n + 1..];
    assert rest != "" ==> t[|t| - 1] == rest[|rest| - 1];
  }

  /** A non-empty body without a newline is one line. */
  lemma LastLine(t: string)
    requires t != "" && FirstBreak(t) == |t|
    ensures Lines(t) == [t] && Unlines(Lines(t)) == t + "\n"
    ensures !Terminated(t)
  {
    FirstBreakSplits(t);
    assert t[..|t|] == t && t[|t|..] == "";
    assert Lines("") == [];
    UnlinesCons(t, []);
    assert [t] + [] == [t];
    assert t[|t| - 1] in t;
  }

  lemma LinesConsThen(l: string, rest: string, b: string)
    requires NoBreak(l)
    ensures Lines(l + "\n" + rest + b) == [l] + Lines(rest + b)
  {
    Regroup(l, rest, b);
    LinesCons(l, rest + b);
  }

  lemma {:induction false} LinesUnlinesThen(ls: seq<string>, b: string)
    requires forall l :: l in ls ==> NoBreak(l)
    ensures Lines(Unlines(ls) + b) == ls + Lines(b)
  {
    if ls == [] {
      assert Unlines(ls) + b == b;
    } else {
      calc {
        Lines(Unlines(ls) + b);
        { LinesConsThen(ls[0], Unlines(ls[1..]), b); }
        [ls[0]] + Lines(Unlines(ls[1..]) + b);
        { LinesUnlinesThen(ls[1..], b); }
        [ls[0]] + (ls[1..] + Lines(b));
        ls + Lines(b);
      }
    }
  }

  lemma LinesUnlines(ls: seq<string>)
    requires forall l :: l in ls ==> NoBreak(l)
    ensures Lines(Unlines(ls)) == ls
  {
    LinesUnlinesThen(ls, "");
    assert Unlines(ls) + "" == Unlines(ls);
  }

  lemma {:induction false} UnlinesAppend(a: seq<string>, b: seq<string>)
    ensures Unlines(a + b) == Unlines(a) + Unlines(b)
  {
    if a == [] {
      assert a + b == b;
    } else {
      UnlinesAppend(a[1..], b);
      assert (a + b)[1..] == a[1..] + b;
    }
  }

  lemma UnlinesSnoc(a: seq<string>, l: string)
    ensures Unlines(a + [l]) == Unlines(a) + l + "\n"
  {
    UnlinesAppend(a, [l]);
    assert Unlines([l]) == l + "\n" + Unlines([]);
  }

  lemma {:induction false} UnlinesTerminated(ls: seq<string>)
    ensures Terminated(Unlines(ls))
  {
    if ls != [] {
      UnlinesTerminated(ls[1..]);
    }
  }

  /** Rewriting a body line by line restores it up to a missing final newline. */
  lemma {:induction false} UnlinesLines(t: string)
    ensures Unlines(Lines(t)) == if Terminated(t) then t else t + "\n"
    decreases |t|
  {
    if t == "" {
    } else if FirstBreak(t) == |t| {
      LastLine(t);
    } else {
      var l, rest := FirstLine(t);
      UnlinesLines(rest);
      UnlinesCons(l, Lines(rest));
      Regroup(l, rest, "\n");
    }
  }

  /** Appending to a terminated body appends its lines. */
  lemma LinesAppend(a: string, b: string)
    requires Terminated(a)
    ensures Lines(a + b) == Lines(a) + Lines(b)
  {
    UnlinesLines(a);
    LinesHaveNoBreak(a);
    LinesUnlinesThen(Lines(a), b);
  }

  // ---- The scanner ----

  lemma NextLine(buf: string, start: nat, end: nat)
    requires start <= end <= |buf| && start < |buf|
    requires NoBreak(buf[start..end]) && (end < |buf| ==> buf[end] == '\n')
    ensures Lines(buf[start..]) == [buf[start..end]] + Lines(buf[if end < |buf| then end + 1 else end..])
  {
    var l := buf[start..end];
    if end < |buf| {
      LinesCons(l, buf[end + 1..]);
      assert buf[start..] == l + "\n" + buf[end + 1..];
    } else {
      FirstBreakNone(l);
      LastLine(l);
      assert buf[start..] == l && buf[end..] == "";
    }
  }

  lemma Advance(buf: string, start: nat, end: nat, all: seq<string>, n: nat)
    requires start <= end <= |buf| && start < |buf|
    requires NoBreak(buf[start..end]) && (end < |buf| ==> buf[end] == '\n')
    requires n <= |all| && Lines(buf[start..]) == all[n..]
    ensures n < |all| && buf[start..end] == all[n]
    ensures Lines(buf[if end < |buf| then end + 1 else end..]) == all[n + 1..]
  {
    NextLine(buf, start, end);
    assert all[n..][0] == buf[start..end];
    assert all[n + 1..] == all[n..][1..];
  }

  lemma Unbroken(buf: string, start: nat, end: nat)
    requires start <= end <= |buf| && forall i :: start <= i < end ==> buf[i] != '\n'
    ensures NoBreak(buf[start..end])
  {
  }

  lemma AtEnd(buf: string, pos: nat, all: seq<string>, n: nat)
    requires pos == |buf| && n <= |all| && Lines(buf[pos..]) == all[n..]
    ensures n == |all|
  {
    assert buf[pos..] == "";
    assert |all[n..]| == |all| - n;
  }

  /** The scanner over an authorized_keys body: a buffer, a position and the current line. */
  class LineScanner {
    const buf: string
    var pos: nat
    var cur: string
    ghost const all: seq<string>  // the lines of buf
    ghost var n: nat              // how many of them were yielded

    ghost predicate Valid()
      reads this
    {
      pos <= |buf| && n <= |all| && Lines(buf[pos..]) == all[n..]
    }

    constructor (buf: string)
      ensures Valid() && this.buf == buf && all == Lines(buf) && n == 0
    {
      this.buf := buf;
      this.pos := 0;
      this.cur := "";
      this.all := Lines(buf);
      this.n := 0;
      new;
      assert buf[0..] == buf;
    }

    method Next() returns (more: bool)
      requires Valid()
      modifies this
      ensures Valid()
      ensures more <==> old(n) < |all|
      ensures more ==> cur == all[old(n)] && n == old(n) + 1
      ensures !more ==> n == old(n) && cur == old(cur)
    {
      if pos >= |buf| {
        AtEnd(buf, pos, all, n);
        return false;
      }
      var start := pos;
      while pos < |buf| && buf[pos] != '\n'
        invariant start <= pos <= |buf| && n == old(n)
        invariant forall i :: start <= i < pos ==> buf[i] != '\n'
      {
        pos := pos + 1;
      }
      Unbroken(buf, start, pos);
      Advance(buf, start, pos, all, n);
      cur := buf[start..pos];
      pos := if pos < |buf| then pos + 1 else pos;
      n := n + 1;
      return true;
    }
  }

  // ---- Trimming ----

  /** The runes unicode.IsSpace accepts. */
  predicate IsSpace(c: char) {
    c in "\t\n\U{0B}\U{0C}\r \U{85}\U{A0}\U{1680}\U{2028}\U{2029}\U{202F}\U{205F}\U{3000}"
    || '\U{2000}' <= c <= '\U{200A}'
  }

  predicate AllSpace(s: string) {
    forall c :: c in s ==> IsSpace(c)
  }

  function TrimLeft(s: string): string {
    if s != "" && IsSpace(s[0]) then TrimLeft(s[1..]) else s
  }

  function TrimRight(s: string): string {
    if s != "" && IsSpace(s[|s| - 1]) then TrimRight(s[..|s| - 1]) else s
  }

  function TrimSpace(s: string): string {
    TrimRight(TrimLeft(s))
  }

  /** Drops trailing characters that occur in cut. */
  function TrimEnd(s: string, cut: string): string {
    if s != "" && s[|s| - 1] in cut then TrimEnd(s[..|s| - 1], cut) else s
  }

  /** TrimLeft leaves the suffix behind the leading white space. */
  lemma {:induction false} TrimLeftAt(s: string)
    ensures var n := |s| - |TrimLeft(s)|; 0 <= n <= |s| && TrimLeft(s) == s[n..] && (n < |s| ==> !IsSpace(s[n]))
  {
    if s != "" && IsSpace(s[0]) {
      var rest := s[1..];
      TrimLeftAt(rest);
      var n := |rest| - |TrimLeft(rest)|;
      assert rest[n..] == s[n + 1..];
    }
  }

  lemma {:induction false} TrimmedLeft(s: string, i: nat)
    requires i < |s| - |TrimLeft(s)|
    ensures i < |s| && IsSpace(s[i])
  {
    if s != "" && IsSpace(s[0]) && i > 0 {
      TrimmedLeft(s[1..], i - 1);
    }
  }

  /** TrimRight leaves the prefix before the trailing white space. */
  lemma {:induction false} TrimRightAt(s: string)
    ensures var n := |TrimRight(s)|; n <= |s| && TrimRight(s) == s[..n] && (n > 0 ==> !IsSpace(s[n - 1]))
  {
    if s != "" && IsSpace(s[|s| - 1]) {
      var init := s[..|s| - 1];
      TrimRightAt(init);
      var n := |TrimRight(init)|;
      assert init[..n] == s[..n];
    }
  }

  lemma {:induction false} TrimmedRight(s: string, i: nat)
    requires |TrimRight(s)| <= i < |s|
    ensures IsSpace(s[i])
  {
    if s != "" && IsSpace(s[|s| - 1]) && i < |s| - 1 {
      TrimmedRight(s[..|s| - 1], i);
    }
  }

  lemma TrimLeftSplits(s: string) returns (ws: string)
    ensures s == ws + TrimLeft(s) && AllSpace(ws)
    ensures TrimLeft(s) != "" ==> !IsSpace(TrimLeft(s)[0])
  {
    TrimLeftAt(s);
    var n := |s| - |TrimLeft(s)|;
    ws := s[..n];
    forall c | c in ws
      ensures IsSpace(c)
    {
      var i :| 0 <= i < |ws| && ws[i] == c;
      TrimmedLeft(s, i);
    }
  }

  lemma TrimRightSplits(s: string) returns (ws: string)
    ensures s == TrimRight(s) + ws && AllSpace(ws)
    ensures TrimRight(s) != "" ==> !IsSpace(TrimRight(s)[|TrimRight(s)| - 1])
    ensures TrimRight(s) != "" ==> TrimRight(s)[0] == s[0]
  {
    TrimRightAt(s);
    var n := |TrimRight(s)|;
    ws := s[n..];
    forall c | c in ws
      ensures IsSpace(c)
    {
      var i :| 0 <= i < |ws| && ws[i] == c;
      TrimmedRight(s, n + i);
    }
  }

  lemma {:induction false} TrimEndSplits(s: string, cut: string) returns (tail: string)
    ensures s == TrimEnd(s, cut) + tail && forall c :: c in tail ==> c in cut
    ensures TrimEnd(s, cut) != "" ==> TrimEnd(s, cut)[|TrimEnd(s, cut)| - 1] !in cut
  {
    if s != "" && s[|s| - 1] in cut {
      var rest := TrimEndSplits(s[..|s| - 1], cut);
      tail := rest + [s[|s| - 1]];
      assert s == s[..|s| - 1] + [s[|s| - 1]];
    } else {
      tail := "";
    }
  }

  lemma Regroup3(a: string, b: string, c: string)
    ensures a + b + c == a + (b + c)
  {
  }

  /** TrimSpace cuts a text into white space, a core that starts and ends in none, and white space. */
  lemma TrimSpaceSplits(s: string) returns (left: string, right: string)
    ensures s == left + TrimSpace(s) + right && AllSpace(left) && AllSpace(right)
    ensures TrimSpace(s) != "" ==> !IsSpace(TrimSpace(s)[0]) && !IsSpace(TrimSpace(s)[|TrimSpace(s)| - 1])
  {
    left := TrimLeftSplits(s);
    right := TrimRightSplits(TrimLeft(s));
    Regroup3(left, TrimSpace(s), right);
  }

  lemma {:induction false} TrimLeftUnique(ws: string, core: string)
    requires AllSpace(ws) && (core != "" ==> !IsSpace(core[0]))
    ensures TrimLeft(ws + core) == core
  {
    if ws == "" {
      assert ws + core == core;
    } else {
      assert (ws + core)[1..] == ws[1..] + core;
      TrimLeftUnique(ws[1..], core);
    }
  }

  lemma {:induction false} TrimRightUnique(core: string, ws: string)
    requires AllSpace(ws) && (core != "" ==> !IsSpace(core[|core| - 1]))
    ensures TrimRight(core + ws) == core
  {
    if ws == "" {
      assert core + ws == core;
    } else {
      var s := core + ws;
      assert s[..|s| - 1] == core + ws[..|ws| - 1];
      TrimRightUnique(core, ws[..|ws| - 1]);
    }
  }

  /** White space: tab to carriage return, blank, and the other runes that Unicode calls so. */
  predicate White(c: char) {
    || '\t' <= c <= '\r' || c == ' ' || c == '\U{85}' || c == '\U{A0}' || c == '\U{1680}' || c == '\U{202F}'
    || '\U{2000}' <= c <= '\U{200A}' || c == '\U{2028}' || c == '\U{2029}' || c == '\U{205F}' || c == '\U{3000}'
  }

  /** What a trimmed text is: the text without the white space at either end, and no more gone. */
  lemma TrimSpaceIs(s: string) returns (left: string, right: string)
    ensures s == left + TrimSpace(s) + right && forall c :: c in left + right ==> White(c)
    ensures TrimSpace(s) != "" ==> !White(TrimSpace(s)[0]) && !White(TrimSpace(s)[|TrimSpace(s)| - 1])
  {
    left, right := TrimSpaceSplits(s);
    forall c: char
      ensures IsSpace(c) <==> White(c)
    {
      SpaceIs(c);
    }
  }

  lemma SpaceIs(c: char)
    ensures IsSpace(c) <==> White(c)
  {
    var s := "\t\n\U{0B}\U{0C}\r \U{85}\U{A0}\U{1680}\U{2028}\U{2029}\U{202F}\U{205F}\U{3000}";
    if '\t' <= c <= '\r' {
      assert c == s[0] || c == s[1] || c == s[2] || c == s[3] || c == s[4];
    } else {
      assert c in s <==> c == s[5] || c == s[6] || c == s[7] || c == s[8] || c == s[9] || c == s[10] || c == s[11]
                         || c == s[12] || c == s[13];
    }
  }

  /** TrimSpace is the core between any two runs of white space. */
  lemma TrimSpaceUnique(left: string, core: string, right: string)
    requires AllSpace(left) && AllSpace(right)
    requires core != "" && !IsSpace(core[0]) && !IsSpace(core[|core| - 1])
    ensures TrimSpace(left + core + right) == core
  {
    assert left + core + right == left + (core + right);
    TrimLeftUnique(left, core + right);
    TrimRightUnique(core, right);
  }

  /** Trimming white space off the end first makes no difference. */
  lemma TrimmedTwice(s: string, cut: string)
    requires forall c :: c in cut ==> IsSpace(c)
    ensures TrimSpace(TrimEnd(s, cut)) == TrimSpace(s)
  {
    var tail := TrimEndSplits(s, cut);
    var core := TrimEnd(s, cut);
    var left, right := TrimSpaceSplits(core);
    assert AllSpace(tail);
    Retrimmed(left, TrimSpace(core), right, tail);
  }

  lemma Retrimmed(left: string, core: string, right: string, tail: string)
    requires AllSpace(left) && AllSpace(right) && AllSpace(tail)
    requires core != "" ==> !IsSpace(core[0]) && !IsSpace(core[|core| - 1])
    ensures TrimSpace(left + core + right + tail) == core
  {
    assert left + core + right + tail == left + core + (right + tail);
    if core != "" {
      TrimSpaceUnique(left, core, right + tail);
    } else {
      assert left + core + (right + tail) == left + (right + tail);
      AllTrimmed(left + (right + tail));
    }
  }

  lemma AllTrimmed(s: string)
    requires AllSpace(s)
    ensures TrimSpace(s) == ""
  {
    TrimLeftUnique(s, "");
    assert s + "" == s;
  }

  lemma {:induction false} TrimEndUnique(core: string, tail: string, cut: string)
    requires forall c :: c in tail ==> c in cut
    requires core != "" ==> core[|core| - 1] !in cut
    ensures TrimEnd(core + tail, cut) == core
  {
    if tail == "" {
      assert core + tail == core;
    } else {
      var s := core + tail;
      assert s[..|s| - 1] == core + tail[..|tail| - 1];
      TrimEndUnique(core, tail[..|tail| - 1], cut);
    }
  }

  // ---- Searching ----

  /** pat occurs in s at i. */
  predicate At(s: string, i: nat, pat: string) {
    i + |pat| <= |s| && s[i..i + |pat|] == pat
  }

  /** The first occurrence of pat in s at or after i, or |s| + 1 when there is none. */
  function IndexFrom(s: string, pat: string, i: nat): (r: nat)
    requires i <= |s|
    ensures i <= r <= |s| + 1
    ensures r <= |s| ==> At(s, r, pat)
    ensures forall j: nat :: i <= j < r ==> !At(s, j, pat)
    decreases |s| - i
  {
    if At(s, i, pat) then i
    else if i == |s| then |s| + 1
    else IndexFrom(s, pat, i + 1)
  }

  /** The index of the first occurrence of pat in s. */
  function Index(s: string, pat: string): (r: Option<nat>)
    ensures r.Some? ==> At(s, r.value, pat) && forall j: nat :: j < r.value ==> !At(s, j, pat)
    ensures r.None? ==> forall j: nat :: !At(s, j, pat)
  {
    var i := IndexFrom(s, pat, 0);
    if i <= |s| then Some(i) else None
  }

  predicate Contains(s: string, pat: string) {
    Index(s, pat).Some?
  }

  lemma IndexUnique(s: string, pat: string, i: nat)
    requires At(s, i, pat) && forall j: nat :: j < i ==> !At(s, j, pat)
    ensures Index(s, pat) == Some(i)
  {
  }

  // ---- Comma-separated lists ----

  /** strings.Join(xs, ","). */
  function JoinCSV(xs: seq<string>): string {
    if xs == [] then ""
    else if |xs| == 1 then xs[0]
    else xs[0] + "," + JoinCSV(xs[1..])
  }

  function FirstComma(s: string): (n: nat)
    ensures n <= |s| && ',' !in s[..n]
    ensures n < |s| ==> s[n] == ','
  {
    if s == "" || s[0] == ',' then 0
    else
      assert s[..1 + FirstComma(s[1..])] == [s[0]] + s[1..][..FirstComma(s[1..])];
      1 + FirstComma(s[1..])
  }

  /** strings.Split(s, ","): never empty, and the empty string splits into one empty field. */
  function SplitCSV(s: string): (fs: seq<string>)
    ensures |fs| >= 1
    decreases |s|
  {
    var n := FirstComma(s);
    if n == |s| then [s] else [s[..n]] + SplitCSV(s[n + 1..])
  }

  lemma {:induction false} FirstCommaIs(x: string, rest: string)
    requires ',' !in x
    ensures FirstComma(x + "," + rest) == |x| && FirstComma(x) == |x|
  {
    if x != "" {
      assert (x + "," + rest)[1..] == x[1..] + "," + rest;
      FirstCommaIs(x[1..], rest);
    }
  }

  lemma {:induction false} SplitJoin(xs: seq<string>)
    requires xs != [] && forall x :: x in xs ==> ',' !in x
    ensures SplitCSV(JoinCSV(xs)) == xs
  {
    var rest := JoinCSV(xs[1..]);
    FirstCommaIs(xs[0], rest);
    if |xs| > 1 {
      SplitJoin(xs[1..]);
      var s := xs[0] + "," + rest;
      assert s[..|xs[0]|] == xs[0] && s[|xs[0]| + 1..] == rest;
    }
  }

  lemma {:induction false} JoinCSVFree(xs: seq<string>, c: char)
    requires c != ',' && forall x :: x in xs ==> c !in x
    ensures c !in JoinCSV(xs)
  {
    if |xs| > 1 {
      JoinCSVFree(xs[1..], c);
    }
  }

  /** A principal or group name as the operator tools accept it. */
  predicate PlainName(n: string) {
    n != "" && TrimSpace(n) == n && ',' !in n && '"' !in n && '\\' !in n && NoBreak(n)
  }

  // ---- Decimal numerals ----

  function Digit(d: nat): char
    requires d < 10
  {
    "0123456789"[d]
  }

  function Decimal(n: nat): (s: string)
    ensures s != ""
  {
    if n < 10 then [Digit(n)] else Decimal(n / 10) + [Digit(n % 10)]
  }

  lemma {:induction false} DecimalInjective(m: nat, n: nat)
    requires Decimal(m) == Decimal(n)
    ensures m == n
  {
    var s := Decimal(m);
    assert s[|s| - 1] == Digit(m % 10) == Digit(n % 10);
    if m < 10 || n < 10 {
      assert |s| == 1;
    } else {
      assert s[..|s| - 1] == Decimal(m / 10) == Decimal(n / 10);
      DecimalInjective(m / 10, n / 10);
    }
  }
}
