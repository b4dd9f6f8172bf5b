/**
 The keyed block certhold keeps in ~/.ssh/config: rendering it, stripping it by the regular expression
 of StripBlock, and deleting it by the sed range that splices and installs use.
 */
module SshConfig {
  import opened Wrappers
  import opened Text
  import F = Filters

  // ---- Sentinels ----

  /** The optional version suffix: nothing, or " v" and at least one digit. */
  predicate Versioned(rest: string) {
    rest == "" || (|rest| >= 3 && rest[..2] == " v" && forall c :: c in rest[2..] ==> '0' <= c <= '9')
  }

  predicate IsMark(line: string, head: string, key: string) {
    head + key <= line && Versioned(line[|head + key|..])
  }

  lemma MarkIs(line: string, head: string, key: string)
    ensures IsMark(line, head, key) <==>
            || line == head + key
            || exists n: string :: n != "" && line == head + key + " v" + n && forall c :: c in n ==> '0' <= c <= '9'
  {
    var h := head + key;
    if IsMark(line, head, key) && line != h {
      var n := line[|h| + 2..];
      assert line == h + line[|h|..] && line[|h|..] == line[|h|..][..2] + n;
      assert line == head + key + " v" + n;
    }
    if n: string :| n != "" && line == head + key + " v" + n && forall c :: c in n ==> '0' <= c <= '9' {
      assert line[|h|..] == " v" + n;
      assert (" v" + n)[2..] == n && (" v" + n)[..2] == " v";
    }
    if line == h {
      assert line[|h|..] == "";
    }
  }

  predicate IsBegin(line: string, key: string) {
    IsMark(line, "# BEGIN certhold ", key)
  }

  predicate IsEnd(line: string, key: string) {
    IsMark(line, "# END certhold ", key)
  }

  function BeginSentinel(key: string): string {
    "# BEGIN certhold " + key + " v2"
  }

  function EndSentinel(key: string): string {
    "# END certhold " + key + " v2"
  }

  lemma SentinelsMark(key: string)
    ensures IsBegin(BeginSentinel(key), key) && IsEnd(EndSentinel(key), key)
  {
    assert BeginSentinel(key)[|"# BEGIN certhold " + key|..] == " v2";
    assert EndSentinel(key)[|"# END certhold " + key|..] == " v2";
  }

  /** Sentinels are told from any other line by their first and third character. */
  lemma MarkShape(line: string, key: string)
    ensures IsBegin(line, key) ==> |line| > 3 && line[0] == '#' && line[2] == 'B'
    ensures IsEnd(line, key) ==> |line| > 3 && line[0] == '#' && line[2] == 'E'
  {
    var b, e := "# BEGIN certhold " + key, "# END certhold " + key;
    if IsBegin(line, key) {
      assert line[0] == b[0] && line[2] == b[2];
    }
    if IsEnd(line, key) {
      assert line[0] == e[0] && line[2] == e[2];
    }
  }

  /** A sentinel carries one instance key, when keys hold no blank. */
  lemma MarkKey(line: string, head: string, k1: string, k2: string)
    requires ' ' !in k1 && ' ' !in k2
    requires IsMark(line, head, k1) && IsMark(line, head, k2)
    ensures k1 == k2
  {
    var n1, n2 := |head + k1|, |head + k2|;
    if n1 < n2 {
      ShorterMark(line, head, k1, k2);
    } else if n2 < n1 {
      ShorterMark(line, head, k2, k1);
    } else {
      assert head + k1 == line[..n1] == head + k2;
      assert k1 == (head + k1)[|head|..] && k2 == (head + k2)[|head|..];
    }
  }

  lemma ShorterMark(line: string, head: string, k1: string, k2: string)
    requires IsMark(line, head, k1) && IsMark(line, head, k2) && |k1| < |k2|
    ensures ' ' in k2
  {
    var n1 := |head + k1|;
    assert line[n1] == line[n1..][0];
    assert line[n1..][..2] == " v";
    assert line[n1] == (head + k2)[n1] == k2[|k1|];
  }

  // ---- Ranges in a list of lines ----

  /** The sed range: its state after the lines, given the state before them. */
  predicate Open(ls: seq<string>, key: string, inside: bool) {
    if ls == [] then inside
    else Open(ls[1..], key, if inside then !IsEnd(ls[0], key) else IsBegin(ls[0], key))
  }

  /** No sentinel range is left open. */
  predicate Closed(ls: seq<string>, key: string) {
    !Open(ls, key, false)
  }

  /** The lines a sed range delete keeps. */
  function Deleted(ls: seq<string>, key: string, inside: bool): seq<string> {
    if ls == [] then []
    else if inside then Deleted(ls[1..], key, !IsEnd(ls[0], key))
    else if IsBegin(ls[0], key) then Deleted(ls[1..], key, true)
    else [ls[0]] + Deleted(ls[1..], key, false)
  }

  /** Line i lies in a range: a begin line at or before it, and no end line in between. */
  ghost predicate InRange(ls: seq<string>, key: string, i: nat)
    requires i < |ls|
  {
    exists b: nat :: b <= i && IsBegin(ls[b], key) && forall j :: b < j < i ==> !IsEnd(ls[j], key)
  }

  /** The first n lines that lie in no range. */
  ghost function Outside(ls: seq<string>, key: string, n: nat): seq<string>
    requires n <= |ls|
  {
    if n == 0 then [] else Outside(ls, key, n - 1) + (if InRange(ls, key, n - 1) then [] else [ls[n - 1]])
  }

  lemma {:induction false} DeletedAppend(a: seq<string>, b: seq<string>, key: string, inside: bool)
    ensures Open(a + b, key, inside) == Open(b, key, Open(a, key, inside))
    ensures Deleted(a + b, key, inside) == Deleted(a, key, inside) + Deleted(b, key, Open(a, key, inside))
  {
    if a == [] {
      assert a + b == b;
    } else {
      assert (a + b)[1..] == a[1..] + b;
      DeletedAppend(a[1..], b, key, if inside then !IsEnd(a[0], key) else IsBegin(a[0], key));
    }
  }

  lemma DeletedSnoc(ls: seq<string>, l: string, key: string)
    ensures var open := Open(ls, key, false);
            && Open(ls + [l], key, false) == (if open then !IsEnd(l, key) else IsBegin(l, key))
            && Deleted(ls + [l], key, false) ==
               Deleted(ls, key, false) + (if open || IsBegin(l, key) then [] else [l])
  {
    DeletedAppend(ls, [l], key, false);
    assert [l][1..] == [];
  }

  ghost predicate BeginsAt(ls: seq<string>, key: string, b: nat, n: nat)
    requires n <= |ls|
  {
    b < n && IsBegin(ls[b], key) && forall j :: b < j < n ==> !IsEnd(ls[j], key)
  }

  /** The state of the range, read off the lines: some begin line with no end line after it. */
  lemma {:induction false} OpenIs(ls: seq<string>, key: string, n: nat)
    requires n <= |ls|
    ensures Open(ls[..n], key, false) <==> exists b: nat :: BeginsAt(ls, key, b, n)
  {
    if n > 0 {
      var m := n - 1;
      OpenIs(ls, key, m);
      assert ls[..n] == ls[..m] + [ls[m]];
      DeletedSnoc(ls[..m], ls[m], key);
      MarkShape(ls[m], key);
      assert BeginsAt(ls, key, m, n) <==> IsBegin(ls[m], key);
      forall b: nat
        ensures BeginsAt(ls, key, b, n) <==>
                  if b == m then IsBegin(ls[m], key) else BeginsAt(ls, key, b, m) && !IsEnd(ls[m], key)
      {
      }
    }
  }

  /** The sed range keeps exactly the lines that lie in no range. */
  lemma {:induction false} DeletedIsOutside(ls: seq<string>, key: string, n: nat)
    requires n <= |ls|
    ensures Deleted(ls[..n], key, false) == Outside(ls, key, n)
  {
    if n > 0 {
      var m := n - 1;
      DeletedIsOutside(ls, key, m);
      assert ls[..n] == ls[..m] + [ls[m]];
      DeletedSnoc(ls[..m], ls[m], key);
      OpenIs(ls, key, m);
      InRangeIs(ls, key, m);
    }
  }

  lemma InRangeIs(ls: seq<string>, key: string, i: nat)
    requires i < |ls|
    ensures InRange(ls, key, i) <==> IsBegin(ls[i], key) || exists b: nat :: BeginsAt(ls, key, b, i)
  {
    if IsBegin(ls[i], key) {
      assert InRange(ls, key, i);
    }
    if b: nat :| BeginsAt(ls, key, b, i) {
      assert IsBegin(ls[b], key);
    }
    if b: nat :| b <= i && IsBegin(ls[b], key) && forall j :: b < j < i ==> !IsEnd(ls[j], key) {
      assert b < i ==> BeginsAt(ls, key, b, i);
    }
  }

  // ---- The two programs, on text ----

  /** The length of the first line with its newline. */
  function LineEnd(t: string): (n: nat)
    ensures n <= |t| && (t != "" ==> n > 0)
  {
    if FirstBreak(t) < |t| then FirstBreak(t) + 1 else |t|
  }

  /** The text after the first end line. */
  function AfterEnd(t: string, key: string): (r: Option<string>)
    ensures r.Some? ==> |r.value| < |t|
    decreases |t|
  {
    if t == "" then None
    else if IsEnd(t[..FirstBreak(t)], key) then Some(t[LineEnd(t)..])
    else AfterEnd(t[LineEnd(t)..], key)
  }

  /** peerfiles.StripBlock: every match of a begin line, as few lines as possible, and an end line goes. */
  function StripBlock(t: string, key: string): string
    decreases |t|
  {
    if t == "" then ""
    else
      var rest := t[LineEnd(t)..];
      if IsBegin(t[..FirstBreak(t)], key) && AfterEnd(rest, key).Some?
      then StripBlock(AfterEnd(rest, key).value, key)
      else t[..LineEnd(t)] + StripBlock(rest, key)
  }

  /** sed '/begin/,/end/d': a range left open runs to the end of the file. */
  function SedDelete(t: string, key: string, inside: bool): string
    decreases |t|
  {
    if t == "" then ""
    else
      var line, rest := t[..FirstBreak(t)], t[LineEnd(t)..];
      if inside then SedDelete(rest, key, !IsEnd(line, key))
      else if IsBegin(line, key) then SedDelete(rest, key, true)
      else t[..LineEnd(t)] + SedDelete(rest, key, false)
  }

  lemma LinesStep(t: string)
    requires t != ""
    ensures Lines(t) == [t[..FirstBreak(t)]] + Lines(t[LineEnd(t)..])
  {
    assert Lines(t[|t|..]) == [];
  }

  lemma {:induction false} SedSkips(t: string, key: string)
    ensures var rest := AfterEnd(t, key);
            && SedDelete(t, key, true) == (if rest.Some? then SedDelete(rest.value, key, false) else "")
            && Open(Lines(t), key, true) == (rest.Some? ==> Open(Lines(rest.value), key, false))
    decreases |t|
  {
    if t != "" {
      LinesStep(t);
      if !IsEnd(t[..FirstBreak(t)], key) {
        SedSkips(t[LineEnd(t)..], key);
      }
    }
  }

  lemma {:induction false} StripNeverLess(t: string, key: string)
    ensures |StripBlock(t, key)| >= |SedDelete(t, key, false)|
    ensures StripBlock(t, key) == SedDelete(t, key, false) <==> Closed(Lines(t), key)
    ensures !Closed(Lines(t), key) ==> |StripBlock(t, key)| > |SedDelete(t, key, false)|
    decreases |t|
  {
    if t != "" {
      var rest := t[LineEnd(t)..];
      LinesStep(t);
      StripNeverLess(rest, key);
      if IsBegin(t[..FirstBreak(t)], key) {
        SedSkips(rest, key);
        if AfterEnd(rest, key).Some? {
          StripNeverLess(AfterEnd(rest, key).value, key);
        }
      } else {
        Cancels(t[..LineEnd(t)], StripBlock(rest, key), SedDelete(rest, key, false));
      }
    }
  }

  lemma Cancels(a: string, b: string, c: string)
    ensures a + b == a + c <==> b == c
  {
    if a + b == a + c {
      assert b == (a + b)[|a|..] && c == (a + c)[|a|..];
    }
  }

  /** Stripping by regular expression and deleting by sed agree exactly when no range is left open. */
  lemma StripIsSed(t: string, key: string)
    ensures StripBlock(t, key) == SedDelete(t, key, false) <==> Closed(Lines(t), key)
  {
    StripNeverLess(t, key);
  }

  lemma SedFirst(l: string, rest: string, key: string, inside: bool)
    requires NoBreak(l)
    ensures SedDelete(l + "\n" + rest, key, inside) ==
            if inside then SedDelete(rest, key, !IsEnd(l, key))
            else if IsBegin(l, key) then SedDelete(rest, key, true)
            else l + "\n" + SedDelete(rest, key, false)
  {
    var t := l + "\n" + rest;
    FirstBreakIs(l, rest);
    assert t[..|l|] == l && t[..|l| + 1] == l + "\n" && t[|l| + 1..] == rest;
  }

  /** On whole lines the sed range works line by line, and does the same to what follows as it would alone. */
  lemma {:induction false} SedThen(ls: seq<string>, b: string, key: string, inside: bool)
    requires forall l :: l in ls ==> NoBreak(l)
    ensures SedDelete(Unlines(ls) + b, key, inside) ==
            Unlines(Deleted(ls, key, inside)) + SedDelete(b, key, Open(ls, key, inside))
  {
    if ls == [] {
      assert Unlines(ls) + b == b;
      assert "" + SedDelete(b, key, inside) == SedDelete(b, key, inside);
    } else {
      var l, rest := ls[0], Unlines(ls[1..]);
      var inside' := if inside then !IsEnd(l, key) else IsBegin(l, key);
      Regroup(l, rest, b);
      SedFirst(l, rest + b, key, inside);
      SedThen(ls[1..], b, key, inside');
      if !inside && !inside' {
        UnlinesCons(l, Deleted(ls[1..], key, false));
        Regroup(l, Unlines(Deleted(ls[1..], key, false)), SedDelete(b, key, Open(ls[1..], key, false)));
      }
    }
  }

  /** The same for a text that ends its last line. */
  lemma SedSplits(a: string, b: string, key: string)
    requires Terminated(a) && Closed(Lines(a), key)
    ensures SedDelete(a + b, key, false) == SedDelete(a, key, false) + SedDelete(b, key, false)
    ensures Lines(SedDelete(a, key, false)) == Deleted(Lines(a), key, false)
    ensures Terminated(SedDelete(a, key, false))
  {
    LinesHaveNoBreak(a);
    UnlinesLines(a);
    SedThen(Lines(a), b, key, false);
    SedThen(Lines(a), "", key, false);
    assert a + "" == a;
    var kept := Deleted(Lines(a), key, false);
    assert Unlines(kept) + "" == Unlines(kept);
    DeletedWithin(Lines(a), key, false);
    LinesUnlines(kept);
    UnlinesTerminated(kept);
  }

  lemma {:induction false} DeletedWithin(ls: seq<string>, key: string, inside: bool)
    ensures forall l :: l in Deleted(ls, key, inside) ==> l in ls && !IsBegin(l, key)
  {
    if ls != [] {
      DeletedWithin(ls[1..], key, if inside then !IsEnd(ls[0], key) else IsBegin(ls[0], key));
    }
  }

  /** Lines without a begin line are all kept, and leave no range open. */
  lemma {:induction false} NoBeginKept(ls: seq<string>, key: string)
    requires forall l :: l in ls ==> !IsBegin(l, key)
    ensures Deleted(ls, key, false) == ls && Closed(ls, key)
  {
    if ls != [] {
      NoBeginKept(ls[1..], key);
    }
  }

  /** Deleting again finds nothing. */
  lemma SedClean(t: string, key: string)
    requires Terminated(t) && Closed(Lines(t), key)
    ensures var t' := SedDelete(t, key, false);
            Terminated(t') && Closed(Lines(t'), key) && SedDelete(t', key, false) == t'
  {
    var t' := SedDelete(t, key, false);
    SedSplits(t, "", key);
    DeletedWithin(Lines(t), key, false);
    NoBeginKept(Lines(t'), key);
    SedSplits(t', "", key);
    UnlinesLines(t');
    UnlinesLines(SedDelete(t', key, false));
  }

  /** A text with none of this instance's begin lines is left alone by both programs. */
  lemma Untouched(t: string, key: string)
    requires Terminated(t) && forall l :: l in Lines(t) ==> !IsBegin(l, key)
    ensures Closed(Lines(t), key) && SedDelete(t, key, false) == t && StripBlock(t, key) == t
  {
    NoBeginKept(Lines(t), key);
    SedSplits(t, "", key);
    UnlinesLines(t);
    UnlinesLines(SedDelete(t, key, false));
    StripIsSed(t, key);
  }

  // ---- Rendering the block ----

  datatype HostEntry = HostEntry(name: string, address: string, user: string)

  const HEADER0 := "# This block is managed by certhold" + " -- auto-generated, do not edit by hand."
  const HEADER1 := "# It makes the local ssh client present" + " the certhold-issued certificate"
  const HEADER2 := "# (CertificateFile + IdentityFile below)" + " on every outbound ssh connection."
  const HEADER3 := "# The instance key in the sentinel lines" + " namespaces this block so multiple"
  const HEADER4 := "# certhold installs can coexist on the same" + " host without clobbering each other."
  const HEADER5 := "# To refresh, re-run the enroll one-liner;" + " it idempotently replaces this range."
  const HEADER: seq<string> := [HEADER0, HEADER1, HEADER2, HEADER3, HEADER4, HEADER5]

  function Stanza(h: HostEntry): seq<string> {
    if h.address == "" && h.user == "" then []
    else
      ["Host " + h.name]
      + (if h.address != "" then ["    HostName " + h.address] else [])
      + (if h.user != "" then ["    User " + h.user] else [])
  }

  function Stanzas(hosts: seq<HostEntry>): seq<string> {
    if hosts == [] then [] else Stanzas(hosts[..|hosts| - 1]) + Stanza(hosts[|hosts| - 1])
  }

  function Identity(key: string): seq<string> {
    ["Host *",
     "    CertificateFile ~/.ssh/id_ed25519_" + key + "-cert.pub",
     "    IdentityFile ~/.ssh/id_ed25519_" + key,
     "    UserKnownHostsFile ~/.ssh/known_hosts"]
  }

  /** The lines between the sentinels. */
  function Inner(key: string, hosts: seq<HostEntry>): seq<string> {
    HEADER + Stanzas(hosts) + Identity(key)
  }

  /** The rendered block. */
  function Block(key: string, hosts: seq<HostEntry>): string {
    Unlines([BeginSentinel(key)] + Inner(key, hosts) + [EndSentinel(key)])
  }

  lemma Unlines1(a: string)
    ensures Unlines([a]) == a + "\n"
  {
    assert [a][1..] == [];
    assert a + "\n" + "" == a + "\n";
  }

  lemma Unlines2(a: string, b: string)
    ensures Unlines([a, b]) == a + "\n" + b + "\n"
  {
    UnlinesSnoc([a], b);
    assert [a] + [b] == [a, b];
    Unlines1(a);
  }

  lemma StanzasStep(hosts: seq<HostEntry>, i: nat)
    requires i < |hosts|
    ensures Stanzas(hosts[..i + 1]) == Stanzas(hosts[..i]) + Stanza(hosts[i])
  {
    assert hosts[..i + 1][..i] == hosts[..i];
  }

  function HostLine(h: HostEntry): string {
    "Host " + h.name + "\n"
  }

  function AddressLine(h: HostEntry): string {
    if h.address != "" then "    HostName " + h.address + "\n" else ""
  }

  function UserLine(h: HostEntry): string {
    if h.user != "" then "    User " + h.user + "\n" else ""
  }

  /** One stanza as the renderer writes it. */
  lemma StanzaText(h: HostEntry)
    requires h.address != "" || h.user != ""
    ensures Unlines(Stanza(h)) == HostLine(h) + AddressLine(h) + UserLine(h)
  {
    var a, b, c := "Host " + h.name, "    HostName " + h.address, "    User " + h.user;
    if h.user == "" {
      assert Stanza(h) == [a, b];
      Unlines2(a, b);
    } else if h.address == "" {
      assert Stanza(h) == [a, c];
      Unlines2(a, c);
    } else {
      assert Stanza(h) == [a, b] + [c];
      Unlines2(a, b);
      UnlinesSnoc([a, b], c);
    }
  }

  lemma Grown(b: string, x: string, y: string, z: string)
    ensures b + x + y + z == b + (x + y + z)
    ensures z == "" ==> b + z == b
  {
  }

  lemma StanzaStep(top: seq<string>, hosts: seq<HostEntry>, i: nat)
    requires i < |hosts|
    ensures var h, b := hosts[i], Unlines(top + Stanzas(hosts[..i]));
            Unlines(top + Stanzas(hosts[..i + 1])) ==
            if h.address == "" && h.user == "" then b else b + HostLine(h) + AddressLine(h) + UserLine(h)
  {
    var h, b := hosts[i], Unlines(top + Stanzas(hosts[..i]));
    StanzasStep(hosts, i);
    UnlinesAppend(top + Stanzas(hosts[..i]), Stanza(h));
    F.Assoc(top, Stanzas(hosts[..i]), Stanza(h));
    Grown(b, HostLine(h), AddressLine(h), UserLine(h));
    if h.address != "" || h.user != "" {
      StanzaText(h);
    } else {
      Grown(b, "", "", "");
    }
  }

  lemma BlockText(key: string, hosts: seq<HostEntry>)
    ensures Block(key, hosts) ==
            Unlines([BeginSentinel(key)] + HEADER + Stanzas(hosts)) + Unlines(Identity(key)) + EndSentinel(key) + "\n"
  {
    var head, tail := [BeginSentinel(key)] + HEADER + Stanzas(hosts), Identity(key);
    assert [BeginSentinel(key)] + Inner(key, hosts) == head + tail;
    UnlinesAppend(head, tail);
    UnlinesSnoc(head + tail, EndSentinel(key));
  }

  /** peerfiles.V2SshClientBlockWithHosts. */
  method V2SshClientBlockWithHosts(instanceKey: string, hosts: seq<HostEntry>) returns (b: string)
    ensures b == Block(instanceKey, hosts)
  {
    ghost var top := [BeginSentinel(instanceKey)] + HEADER;
    b := BeginSentinel(instanceKey);
    b := b + "\n" + Unlines(HEADER);
    UnlinesCons(BeginSentinel(instanceKey), HEADER);
    assert top + [] == top;
    for i := 0 to |hosts|
      invariant b == Unlines(top + Stanzas(hosts[..i]))
    {
      var h := hosts[i];
      StanzaStep(top, hosts, i);
      if h.address == "" && h.user == "" {
        continue;
      }
      b := b + HostLine(h);
      if h.address != "" {
        b := b + AddressLine(h);
      } else {
        Grown(b, "", "", "");
      }
      if h.user != "" {
        b := b + UserLine(h);
      } else {
        Grown(b, "", "", "");
      }
    }
    assert hosts[..|hosts|] == hosts;
    BlockText(instanceKey, hosts);
    var id := Identity(instanceKey);
    b := b + Unlines(id) + EndSentinel(instanceKey) + "\n";
  }

  // ---- What the block is to the two programs ----

  /** Host entries as the database holds them: one line each. */
  ghost predicate PlainHosts(hosts: seq<HostEntry>) {
    forall h :: h in hosts ==> NoBreak(h.name) && NoBreak(h.address) && NoBreak(h.user)
  }

  /** A line no instance reads as a sentinel. */
  predicate Plain(l: string) {
    NoBreak(l) && !(|l| > 3 && l[0] == '#' && (l[2] == 'B' || l[2] == 'E'))
  }

  lemma {:induction false} StanzasPlain(hosts: seq<HostEntry>)
    requires PlainHosts(hosts)
    ensures forall l :: l in Stanzas(hosts) ==> Plain(l)
  {
    if hosts != [] {
      StanzasPlain(hosts[..|hosts| - 1]);
      var h := hosts[|hosts| - 1];
      assert h in hosts;
      assert ("Host " + h.name)[0] == 'H';
      assert ("    HostName " + h.address)[0] == ' ';
      assert ("    User " + h.user)[0] == ' ';
    }
  }

  lemma PlainSetting(a: string, key: string, b: string)
    requires a != "" && a[0] == ' ' && NoBreak(a) && NoBreak(key) && NoBreak(b)
    ensures Plain(a + key) && Plain(a + key + b)
  {
  }

  lemma IdentityPlain(key: string)
    requires NoBreak(key)
    ensures forall l :: l in Identity(key) ==> Plain(l)
  {
    CertificateLine(key);
    PlainSetting("    IdentityFile ~/.ssh/id_ed25519_", key, "");
    PlainSetting("    UserKnownHostsFile", "", " ~/.ssh/known_hosts");
    assert "    UserKnownHostsFile" + "" + " ~/.ssh/known_hosts" == "    UserKnownHostsFile ~/.ssh/known_hosts";
  }

  lemma CertificateLine(key: string)
    requires NoBreak(key)
    ensures Plain("    CertificateFile ~/.ssh/id_ed25519_" + key + "-cert.pub")
  {
    PlainSetting("    CertificateFile ~/.ssh/id_ed25519_", key, "-cert.pub");
  }

  lemma PlainComment(a: string, b: string)
    requires |a| > 3 && a[2] != 'B' && a[2] != 'E' && NoBreak(a) && NoBreak(b)
    ensures Plain(a + b)
  {
  }

  lemma HeaderPlain()
    ensures forall l :: l in HEADER ==> Plain(l)
  {
    Header0();
    Header1();
    Header2();
    Header3();
    Header4();
    Header5();
  }

  lemma Header0()
    ensures Plain(HEADER0)
  {
    PlainComment("# This block is managed by certhold", " -- auto-generated, do not edit by hand.");
  }

  lemma Header1()
    ensures Plain(HEADER1)
  {
    PlainComment("# It makes the local ssh client present", " the certhold-issued certificate");
  }

  lemma Header2()
    ensures Plain(HEADER2)
  {
    PlainComment("# (CertificateFile + IdentityFile below)", " on every outbound ssh connection.");
  }

  lemma Header3()
    ensures Plain(HEADER3)
  {
    PlainComment("# The instance key in the sentinel lines", " namespaces this block so multiple");
  }

  lemma Header4()
    ensures Plain(HEADER4)
  {
    PlainComment("# certhold installs can coexist on the same", " host without clobbering each other.");
  }

  lemma Header5()
    ensures Plain(HEADER5)
  {
    PlainComment("# To refresh, re-run the enroll one-liner;", " it idempotently replaces this range.");
  }

  lemma InnerPlain(key: string, hosts: seq<HostEntry>)
    requires NoBreak(key) && PlainHosts(hosts)
    ensures forall l :: l in Inner(key, hosts) ==> Plain(l)
  {
    HeaderPlain();
    StanzasPlain(hosts);
    IdentityPlain(key);
  }

  lemma {:induction false} PlainDeleted(ls: seq<string>, key: string, inside: bool)
    requires forall l :: l in ls ==> Plain(l)
    ensures Deleted(ls, key, inside) == (if inside then [] else ls) && Open(ls, key, inside) == inside
  {
    if ls != [] {
      assert Plain(ls[0]);
      MarkShape(ls[0], key);
      PlainDeleted(ls[1..], key, inside);
      assert [ls[0]] + ls[1..] == ls;
    }
  }

  lemma DeletedOne(l: string, key: string, inside: bool)
    ensures Open([l], key, inside) == (if inside then !IsEnd(l, key) else IsBegin(l, key))
    ensures Deleted([l], key, inside) == if inside || IsBegin(l, key) then [] else [l]
  {
    assert [l][1..] == [];
  }

  /** The whole block goes when sed deletes its own instance's range, and stays for any other instance. */
  lemma BlockDeleted(own: string, hosts: seq<HostEntry>, key: string)
    requires NoBreak(own) && PlainHosts(hosts) && ' ' !in own && ' ' !in key
    ensures var ls := [BeginSentinel(own)] + Inner(own, hosts) + [EndSentinel(own)];
            && (forall l :: l in ls ==> NoBreak(l))
            && Closed(ls, key)
            && Deleted(ls, key, false) == if key == own then [] else ls
  {
    var b, inner, e := BeginSentinel(own), Inner(own, hosts), EndSentinel(own);
    InnerPlain(own, hosts);
    SentinelsPlain(own);
    OwnSentinels(own, key);
    MarkedDeleted(b, inner, e, key, key == own);
  }

  /** Stanza i of a config names the host, and then its address and its user where there are any. */
  ghost predicate Says(ls: seq<string>, i: nat, h: HostEntry) {
    var user := if h.address == "" then i + 1 else i + 2;
    && i < |ls| && ls[i] == "Host " + h.name
    && (h.address != "" ==> i + 1 < |ls| && ls[i + 1] == "    HostName " + h.address)
    && (h.user != "" ==> user < |ls| && ls[user] == "    User " + h.user)
  }

  lemma {:induction false} StanzasSay(hosts: seq<HostEntry>, n: nat) returns (i: nat)
    requires n < |hosts| && (hosts[n].address != "" || hosts[n].user != "")
    ensures Says(Stanzas(hosts), i, hosts[n])
  {
    var last := |hosts| - 1;
    if n == last {
      i := |Stanzas(hosts[..last])|;
    } else {
      i := StanzasSay(hosts[..last], n);
    }
  }

  /** What an ssh client reads in the block: each host's address and user, and for all hosts the keyed identity. */
  lemma BlockSays(key: string, hosts: seq<HostEntry>)
    requires NoBreak(key) && ' ' !in key && PlainHosts(hosts)
    ensures var ls := Lines(Block(key, hosts));
            && (forall h :: h in hosts && (h.address != "" || h.user != "") ==> exists i: nat :: Says(ls, i, h))
            && |ls| >= 6 && ls[0] == "# BEGIN certhold " + key + " v2"
            && ls[|ls| - 5..] == ["Host *", "    CertificateFile ~/.ssh/id_ed25519_" + key + "-cert.pub",
                                  "    IdentityFile ~/.ssh/id_ed25519_" + key,
                                  "    UserKnownHostsFile ~/.ssh/known_hosts", "# END certhold " + key + " v2"]
  {
    var front := [BeginSentinel(key)] + HEADER;
    var ls := front + Stanzas(hosts) + Identity(key) + [EndSentinel(key)];
    BlockDeleted(key, hosts, key);
    assert ls == [BeginSentinel(key)] + Inner(key, hosts) + [EndSentinel(key)];
    LinesUnlines(ls);
    forall h | h in hosts && (h.address != "" || h.user != "")
      ensures exists i: nat :: Says(ls, i, h)
    {
      var n :| 0 <= n < |hosts| && hosts[n] == h;
      var i := StanzasSay(hosts, n);
      SaysWithin(front, Stanzas(hosts), Identity(key) + [EndSentinel(key)], i, h);
      F.Assoc(front + Stanzas(hosts), Identity(key), [EndSentinel(key)]);
    }
  }

  lemma SaysWithin(front: seq<string>, ls: seq<string>, back: seq<string>, i: nat, h: HostEntry)
    requires Says(ls, i, h)
    ensures Says(front + ls + back, |front| + i, h)
  {
    assert forall j :: 0 <= j < |ls| ==> (front + ls + back)[|front| + j] == ls[j];
  }

  lemma SentinelsPlain(own: string)
    requires NoBreak(own)
    ensures NoBreak(BeginSentinel(own)) && NoBreak(EndSentinel(own))
  {
    assert NoBreak("# BEGIN certhold ") && NoBreak("# END certhold ") && NoBreak(" v2");
  }

  lemma OwnSentinels(own: string, key: string)
    requires ' ' !in own && ' ' !in key
    ensures IsBegin(BeginSentinel(own), key) == (key == own) && !IsEnd(BeginSentinel(own), key)
    ensures IsEnd(EndSentinel(own), key) == (key == own) && !IsBegin(EndSentinel(own), key)
  {
    var b, e := BeginSentinel(own), EndSentinel(own);
    SentinelsMark(own);
    MarkShape(b, own);
    MarkShape(e, own);
    MarkShape(b, key);
    MarkShape(e, key);
    if IsBegin(b, key) {
      MarkKey(b, "# BEGIN certhold ", own, key);
    }
    if IsEnd(e, key) {
      MarkKey(e, "# END certhold ", own, key);
    }
  }

  lemma MarkedDeleted(b: string, inner: seq<string>, e: string, key: string, mine: bool)
    requires forall l :: l in inner ==> Plain(l)
    requires IsBegin(b, key) == mine && IsEnd(e, key) == mine && !IsBegin(e, key)
    ensures Closed([b] + inner + [e], key)
    ensures Deleted([b] + inner + [e], key, false) == if mine then [] else [b] + inner + [e]
  {
    DeletedOne(b, key, false);
    PlainDeleted(inner, key, mine);
    DeletedAppend([b], inner, key, false);
    DeletedOne(e, key, mine);
    DeletedAppend([b] + inner, [e], key, false);
  }

  lemma SedOverBlock(own: string, hosts: seq<HostEntry>, key: string, rest: string)
    requires NoBreak(own) && PlainHosts(hosts) && ' ' !in own && ' ' !in key
    ensures SedDelete(Block(own, hosts) + rest, key, false) ==
            (if key == own then "" else Block(own, hosts)) + SedDelete(rest, key, false)
    ensures Terminated(Block(own, hosts)) && Closed(Lines(Block(own, hosts)), key)
  {
    var ls := [BeginSentinel(own)] + Inner(own, hosts) + [EndSentinel(own)];
    BlockDeleted(own, hosts, key);
    SedThen(ls, rest, key, false);
    LinesUnlines(ls);
    UnlinesTerminated(ls);
  }

  // ---- Splicing ----

  /** sshpush.SpliceConfigBlock, and the install script: delete the range, append the block. */
  function Splice(t: string, key: string, block: string): string {
    SedDelete(t, key, false) + block
  }

  lemma ClosedAppend(a: string, b: string, key: string)
    requires Terminated(a) && Closed(Lines(a), key)
    requires Terminated(b) && Closed(Lines(b), key)
    ensures Closed(Lines(a + b), key) && Terminated(a + b)
  {
    LinesAppend(a, b);
    DeletedAppend(Lines(a), Lines(b), key, false);
  }

  lemma SedCleanThen(kept: string, block: string, key: string)
    requires Terminated(kept) && Closed(Lines(kept), key) && SedDelete(kept, key, false) == kept
    requires SedDelete(block, key, false) == ""
    ensures SedDelete(kept + block, key, false) == kept
  {
    SedSplits(kept, block, key);
    assert kept + "" == kept;
  }

  lemma SpliceClosed(t: string, key: string, hosts: seq<HostEntry>)
    requires NoBreak(key) && ' ' !in key && PlainHosts(hosts)
    requires Terminated(t) && Closed(Lines(t), key)
    ensures var s := Splice(t, key, Block(key, hosts));
            Terminated(s) && Closed(Lines(s), key) && SedDelete(s, key, false) == SedDelete(t, key, false)
  {
    var kept, block := SedDelete(t, key, false), Block(key, hosts);
    SedClean(t, key);
    OwnBlockGone(key, hosts);
    SedCleanThen(kept, block, key);
    ClosedAppend(kept, block, key);
  }

  lemma OwnBlockGone(key: string, hosts: seq<HostEntry>)
    requires NoBreak(key) && ' ' !in key && PlainHosts(hosts)
    ensures var block := Block(key, hosts);
            Terminated(block) && Closed(Lines(block), key) && SedDelete(block, key, false) == ""
  {
    SedOverBlock(key, hosts, key, "");
    assert Block(key, hosts) + "" == Block(key, hosts);
  }

  /** Stripping after a splice removes the rendered block and nothing else. */
  lemma StripUndoesSplice(t: string, key: string, hosts: seq<HostEntry>)
    requires NoBreak(key) && ' ' !in key && PlainHosts(hosts)
    requires Terminated(t) && Closed(Lines(t), key)
    ensures StripBlock(Splice(t, key, Block(key, hosts)), key) == StripBlock(t, key)
    ensures (forall l :: l in Lines(t) ==> !IsBegin(l, key)) ==> StripBlock(Splice(t, key, Block(key, hosts)), key) == t
  {
    SpliceClosed(t, key, hosts);
    StripIsSed(t, key);
    StripIsSed(Splice(t, key, Block(key, hosts)), key);
    if forall l :: l in Lines(t) ==> !IsBegin(l, key) {
      Untouched(t, key);
    }
  }

  /** Two splices are the last one. */
  lemma SpliceTwice(t: string, key: string, hosts: seq<HostEntry>, block: string)
    requires NoBreak(key) && ' ' !in key && PlainHosts(hosts)
    requires Terminated(t) && Closed(Lines(t), key)
    ensures Splice(Splice(t, key, Block(key, hosts)), key, block) == Splice(t, key, block)
  {
    SpliceClosed(t, key, hosts);
  }

  /** A splice keeps another instance's block, and the user's text around it, byte for byte. */
  lemma SpliceKeepsOthers(a: string, other: string, theirs: seq<HostEntry>, c: string, key: string,
                          hosts: seq<HostEntry>)
    requires NoBreak(other) && ' ' !in key && ' ' !in other && key != other && PlainHosts(theirs)
    requires Terminated(a) && Closed(Lines(a), key)
    ensures Splice(a + Block(other, theirs) + c, key, Block(key, hosts)) ==
            SedDelete(a, key, false) + Block(other, theirs) + SedDelete(c, key, false) + Block(key, hosts)
    ensures Terminated(c) && (forall l :: l in Lines(a) + Lines(c) ==> !IsBegin(l, key)) ==>
              Splice(a + Block(other, theirs) + c, key,
                     Block(key, hosts)) == a + Block(other, theirs) + c + Block(key, hosts)
  {
    var block := Block(other, theirs);
    Around(a, block, c);
    SedSplits(a, block + c, key);
    SedOverBlock(other, theirs, key, c);
    Around(SedDelete(a, key, false), block, SedDelete(c, key, false));
    if Terminated(c) && forall l :: l in Lines(a) + Lines(c) ==> !IsBegin(l, key) {
      Untouched(a, key);
      Untouched(c, key);
    }
  }

  lemma Around(a: string, b: string, c: string)
    ensures a + b + c == a + (b + c)
  {
  }

  /** A splice keeps, in order, exactly the lines that lie in no range of this instance, then the block. */
  lemma SpliceKeepsUserText(t: string, key: string, hosts: seq<HostEntry>)
    requires NoBreak(key) && PlainHosts(hosts) && ' ' !in key && Terminated(t) && Closed(Lines(t), key)
    ensures Lines(Splice(t, key, Block(key, hosts))) == Outside(Lines(t), key, |Lines(t)|) + Lines(Block(key, hosts))
  {
    SedSplits(t, "", key);
    LinesAppend(SedDelete(t, key, false), Block(key, hosts));
    DeletedIsOutside(Lines(t), key, |Lines(t)|);
    assert Lines(t)[..|Lines(t)|] == Lines(t);
  }
}
