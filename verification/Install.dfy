/** What the install script does to authorized_keys and ssh_config on a peer. */
module Install {
  import opened Wrappers
  import opened Text
  import opened Principals
  import opened AuthorizedKeys
  import opened TrustLaws
  import opened PrincipalLaws
  import opened SshConfig
  import opened Tables
  import opened Fleet
  import opened Manager
  import F = Filters

  // ---- awk ----

  predicate Blank(c: char) {
    c == ' ' || c == '\t'
  }

  predicate BlankFree(s: string) {
    forall c :: c in s ==> !Blank(c)
  }

  function SkipBlanks(s: string): (r: string)
    ensures |r| <= |s| && (r != "" ==> !Blank(r[0]))
  {
    if s != "" && Blank(s[0]) then SkipBlanks(s[1..]) else s
  }

  function Word(s: string): (r: string)
    ensures r <= s && BlankFree(r)
  {
    if s == "" || Blank(s[0]) then "" else
      assert forall c :: c in [s[0]] + Word(s[1..]) ==> c == s[0] || c in Word(s[1..]);
      [s[0]] + Word(s[1..])
  }

  /** The n-th blank-separated field, counted from one; empty when there are fewer. */
  function Field(s: string, n: nat): string
    decreases n
  {
    var t := SkipBlanks(s);
    if n == 0 then "" else if n == 1 then Word(t) else Field(t[|Word(t)|..], n - 1)
  }

  lemma {:induction false} WordIs(w: string, rest: string)
    requires BlankFree(w) && (rest != "" ==> Blank(rest[0]))
    ensures Word(w + rest) == w
  {
    if w == "" {
      assert w + rest == rest;
    } else {
      assert (w + rest)[1..] == w[1..] + rest;
      WordIs(w[1..], rest);
    }
  }

  lemma NextField(w: string, rest: string, n: nat)
    requires w != "" && BlankFree(w) && (rest != "" ==> Blank(rest[0])) && n >= 2
    ensures Field(w + rest, n) == Field(rest, n - 1) && Field(w + rest, 1) == w
  {
    WordIs(w, rest);
    assert SkipBlanks(w + rest) == w + rest;
    assert (w + rest)[|w|..] == rest;
  }

  lemma FieldAfterBlank(rest: string, n: nat)
    ensures Field(" " + rest, n) == Field(rest, n)
  {
    assert (" " + rest)[1..] == rest;
    assert SkipBlanks(" " + rest) == SkipBlanks(rest);
  }

  // ---- The script ----

  ghost function Carrying(key: string): string -> bool {
    l => Contains(l, key)
  }

  /** grep -qF. */
  predicate Grep(t: string, key: string) {
    exists l :: l in Lines(t) && Contains(l, key)
  }

  /** grep -vF. */
  function GrepOut(ls: seq<string>, key: string): seq<string> {
    if ls == [] then [] else (if Contains(ls[0], key) then [] else [ls[0]]) + GrepOut(ls[1..], key)
  }

  lemma {:induction false} GrepOutIs(ls: seq<string>, key: string)
    ensures GrepOut(ls, key) == F.Without(ls, Carrying(key))
  {
    if ls != [] {
      GrepOutIs(ls[1..], key);
    }
  }

  /** The trust-line step for a bundle with an inbound line: append, leave alone, or replace. */
  method InstallLine(existing: string, line: string) returns (out: string)
    ensures out == Installed(existing, line)
  {
    var caKey := Field(line, 3);
    if !Grep(existing, caKey) {
      out := existing + line + "\n";
    } else if line !in Lines(existing) {
      var kept := GrepOut(Lines(existing), caKey);
      GrepOutIs(Lines(existing), caKey);
      out := Unlines(kept) + line + "\n";
    } else {
      out := existing;
    }
  }

  /** The step for a client's bundle, which ships the bare key: remove whatever carries it. */
  method InstallClient(existing: string, caPub: string) returns (out: string)
    ensures out == ClientInstalled(existing, caPub)
  {
    var caKey := Field(caPub, 2);
    if caKey != "" && Grep(existing, caKey) {
      var kept := GrepOut(Lines(existing), caKey);
      GrepOutIs(Lines(existing), caKey);
      out := Unlines(kept);
    } else {
      out := existing;
    }
  }

  ghost function Installed(t: string, line: string): string {
    var caKey := Field(line, 3);
    if !Grep(t, caKey) then t + line + "\n"
    else if line !in Lines(t) then Unlines(F.Without(Lines(t), Carrying(caKey))) + line + "\n"
    else t
  }

  ghost function ClientInstalled(t: string, caPub: string): string {
    var caKey := Field(caPub, 2);
    if caKey != "" && Grep(t, caKey) then Unlines(F.Without(Lines(t), Carrying(caKey))) else t
  }

  // ---- What it leaves ----

  lemma AppendedLines(t: string, line: string)
    requires Terminated(t) && NoBreak(line)
    ensures Lines(t + line + "\n") == Lines(t) + [line]
  {
    LinesCons(line, "");
    assert line + "\n" + "" == line + "\n";
    LinesAppend(t, line + "\n");
    Around(t, line, "\n");
  }

  lemma KeptLines(t: string, key: string, line: string)
    requires NoBreak(line)
    ensures Lines(Unlines(F.Without(Lines(t), Carrying(key))) + line + "\n") ==
            F.Without(Lines(t), Carrying(key)) + [line]
    ensures Lines(Unlines(F.Without(Lines(t), Carrying(key)))) == F.Without(Lines(t), Carrying(key))
  {
    var kept := F.Without(Lines(t), Carrying(key));
    LinesHaveNoBreak(t);
    F.Members(Lines(t), Carrying(key));
    LinesUnlines(kept);
    UnlinesTerminated(kept);
    AppendedLines(Unlines(kept), line);
  }

  /** The append reaches the file as a line of its own: it ends its last line, or nothing is appended to it as it is. */
  predicate Fits(t: string, line: string) {
    Terminated(t) || Grep(t, Field(line, 3))
  }

  /**
   The lines afterwards: as before if the line was there, else those that do not carry its third field, and the line.
   */
  lemma InstalledIs(t: string, line: string)
    requires Fits(t, line) && NoBreak(line)
    ensures Lines(Installed(t, line)) ==
            if Grep(t, Field(line, 3)) && line in Lines(t) then Lines(t)
            else F.Without(Lines(t), Carrying(Field(line, 3))) + [line]
  {
    var key := Field(line, 3);
    if !Grep(t, key) {
      AppendedLines(t, line);
      F.NonePass(Lines(t), Carrying(key));
    } else if line !in Lines(t) {
      KeptLines(t, key, line);
    }
  }

  /** On such a file the line is there afterwards and each line that does not carry its key stays in order. */
  lemma InstalledLines(t: string, line: string)
    requires Fits(t, line) && NoBreak(line)
    ensures line in Lines(Installed(t, line))
    ensures Contains(line, Field(line, 3)) ==>
              F.Without(Lines(Installed(t, line)),
                        Carrying(Field(line, 3))) == F.Without(Lines(t), Carrying(Field(line, 3)))
    ensures forall l :: l in Lines(Installed(t, line)) ==> l == line || l in Lines(t)
    ensures line !in Lines(t) ==> F.Only(Lines(Installed(t, line)), Carrying(Field(line, 3))) ==
                                  F.Only([line], Carrying(Field(line, 3)))
  {
    InstalledIs(t, line);
    KeptAndLine(Lines(t), line, Carrying(Field(line, 3)));
  }

  lemma KeptAndLine(ls: seq<string>, line: string, has: string -> bool)
    ensures has(line) ==> F.Without(F.Without(ls, has) + [line], has) == F.Without(ls, has)
    ensures F.Only(F.Without(ls, has) + [line], has) == F.Only([line], has)
    ensures line in F.Without(ls, has) + [line]
    ensures forall l :: l in F.Without(ls, has) + [line] ==> l == line || l in ls
  {
    F.Members(ls, has);
    F.Snoc(F.Without(ls, has), line, has);
    F.Idempotent(ls, has);
    F.One(line, has);
    assert F.Without(ls, has) + [] == F.Without(ls, has);
    assert (F.Without(ls, has) + [line])[|F.Without(ls, has)|] == line;
  }

  /** Any other line survives exactly if it does not carry the third field, or the bundle's line was there already. */
  lemma Survives(t: string, line: string, l: string)
    requires Fits(t, line) && NoBreak(line) && l in Lines(t) && l != line
    ensures l in Lines(Installed(t, line)) <==> !Contains(l, Field(line, 3)) || line in Lines(t)
  {
    InstalledIs(t, line);
    F.Members(Lines(t), Carrying(Field(line, 3)));
  }

  /**
   Installing again changes nothing exactly if the first append reached the file as a line of its own. Otherwise it was
   glued to the user's last line, and the second install takes that line away.
   */
  lemma InstallTwice(t: string, line: string)
    requires NoBreak(line) && line != "" && Contains(line, Field(line, 3))
    ensures Installed(Installed(t, line), line) == Installed(t, line) <==> Fits(t, line)
    ensures !Fits(t, line) ==>
              Lines(t) != [] && Lines(Installed(Installed(t, line), line)) == Lines(t)[..|Lines(t)| - 1] + [line]
  {
    if Fits(t, line) {
      InstalledLines(t, line);
    } else {
      GluedThenDropped(t, line);
    }
  }

  lemma GluedThenDropped(t: string, line: string)
    requires NoBreak(line) && line != "" && Contains(line, Field(line, 3)) && !Fits(t, line)
    ensures Lines(t) != [] && Lines(Installed(Installed(t, line), line)) == Lines(t)[..|Lines(t)| - 1] + [line]
    ensures Installed(Installed(t, line), line) != Installed(t, line)
  {
    var t' := Installed(t, line);
    var init, last := Glued(t, line);
    assert Lines(t)[..|Lines(t)| - 1] == init;
    forall l | l in init
      ensures !Contains(l, Field(line, 3))
    {
      assert l in Lines(t);
    }
    ReplacesGlued(t', init, last, line);
    assert (init + [line])[|init|] == line && (init + [last + line])[|init|] == last + line;
    assert |last + line| > |line|;
  }

  /** On a file with the glued line the install replaces just that. */
  lemma ReplacesGlued(t: string, init: seq<string>, last: string, line: string)
    requires NoBreak(line) && last != "" && Contains(line, Field(line, 3))
    requires Lines(t) == init + [last + line] && forall l :: l in init ==> !Contains(l, Field(line, 3))
    ensures Lines(Installed(t, line)) == init + [line]
  {
    var key := Field(line, 3);
    ContainsRight(last, line, key);
    assert Lines(t)[|init|] == last + line;
    assert (last + line) in Lines(t);
    assert |last + line| > |line|;
    assert line !in init + [last + line];
    KeptLines(t, key, line);
    GluedKept(init, last + line, key);
  }

  lemma GluedKept(init: seq<string>, glued: string, key: string)
    requires Contains(glued, key) && forall l :: l in init ==> !Contains(l, key)
    ensures F.Without(init + [glued], Carrying(key)) == init
  {
    F.Snoc(init, glued, Carrying(key));
    F.NonePass(init, Carrying(key));
    F.One(glued, Carrying(key));
    assert init + [] == init;
  }

  lemma ContainsRight(a: string, b: string, key: string)
    requires Contains(b, key)
    ensures Contains(a + b, key)
  {
    var i := Index(b, key).value;
    assert (a + b)[|a| + i..|a| + i + |key|] == b[i..i + |key|];
    assert At(a + b, |a| + i, key);
  }

  /**
   On a file with an unfinished last line that needs the append, the line is glued to it: it arrives only if the file
   ended its last line.
   */
  lemma AppendNeedsNewline(t: string, line: string)
    requires NoBreak(line) && line != "" && !Grep(t, Field(line, 3)) && Contains(line, Field(line, 3))
    ensures line in Lines(Installed(t, line)) <==> Terminated(t)
  {
    if Terminated(t) {
      InstalledLines(t, line);
    } else {
      var init, last := Glued(t, line);
      assert line !in Lines(t);
      assert |last + line| > |line|;
    }
  }

  lemma GluedLast(t: string, line: string)
    requires NoBreak(line) && t != "" && FirstBreak(t) == |t|
    ensures Lines(t) == [t] && Lines(t + line + "\n") == [t + line]
  {
    LastLine(t);
    FirstBreakSplits(t);
    assert t[..|t|] == t;
    LinesCons(t + line, "");
    assert t + line + "\n" + "" == t + line + "\n";
    assert Lines("") == [];
  }

  lemma GluedStep(l: string, rest: string, line: string, init: seq<string>, last: string)
    requires NoBreak(l) && Lines(rest + line + "\n") == init + [last]
    ensures Lines(l + "\n" + rest + line + "\n") == [l] + init + [last]
  {
    Around(rest, line, "\n");
    Around(l + "\n" + rest, line, "\n");
    Regroup(l, rest, line + "\n");
    LinesCons(l, rest + (line + "\n"));
    F.Assoc([l], init, [last]);
  }

  lemma {:induction false} Glued(t: string, line: string) returns (init: seq<string>, last: string)
    requires NoBreak(line) && !Terminated(t)
    ensures last != "" && Lines(t) == init + [last] && Lines(t + line + "\n") == init + [last + line]
    decreases |t|
  {
    if FirstBreak(t) == |t| {
      GluedLast(t, line);
      init, last := [], t;
    } else {
      var l, rest := FirstLine(t);
      var init';
      init', last := Glued(rest, line);
      init := [l] + init';
      GluedStep(l, rest, line, init', last + line);
      F.Assoc([l], init', [last]);
    }
  }

  // ---- The key it looks for ----

  lemma {:induction false} SkipAppend(x: string, rest: string)
    requires rest != "" && !Blank(rest[0])
    ensures SkipBlanks(x + rest) == SkipBlanks(x) + rest
  {
    if x == "" {
      assert x + rest == rest;
    } else {
      assert (x + rest)[1..] == x[1..] + rest;
      if Blank(x[0]) {
        SkipAppend(x[1..], rest);
      }
    }
  }

  lemma {:induction false} WordAppend(x: string, rest: string)
    ensures BlankFree(x) ==> Word(x + rest) == x + Word(rest) && Word(x) == x
    ensures !BlankFree(x) ==> Word(x + rest) == Word(x) && |Word(x)| < |x| && Blank(x[|Word(x)|])
  {
    if x == "" {
      assert x + rest == rest;
    } else {
      assert (x + rest)[1..] == x[1..] + rest && x == [x[0]] + x[1..];
      WordAppend(x[1..], rest);
      assert forall c :: c in x <==> c == x[0] || c in x[1..];
    }
  }

  lemma {:induction false} SkipSuffix(x: string)
    ensures |SkipBlanks(x)| <= |x| && SkipBlanks(x) == x[|x| - |SkipBlanks(x)|..]
  {
    if x != "" && Blank(x[0]) {
      SkipSuffix(x[1..]);
    }
  }

  /** What stands after the principals in a trust line. */
  function Closing(kind: string, blob: string): string {
    "\" " + kind + " " + blob
  }

  lemma ClosingSplits(kind: string, blob: string)
    ensures Closing(kind, blob) == "\"" + (" " + (kind + (" " + blob)))
    ensures Word(Closing(kind, blob)) == "\"" && Closing(kind, blob)[1..] == " " + (kind + (" " + blob))
  {
    var rest := " " + (kind + (" " + blob));
    assert "\" " == "\"" + " ";
    assert Closing(kind, blob) == "\"" + rest;
    WordIs("\"", rest);
  }

  /** w is a stretch of v, or one with the closing quote on it. */
  ghost predicate Stretch(v: string, w: string) {
    exists i: nat, u :: At(v, i, u) && (w == u || w == u + "\"")
  }

  lemma StretchOfRest(v: string, n: nat, w: string)
    requires n <= |v| && Stretch(v[n..], w)
    ensures Stretch(v, w)
  {
    var i: nat, u :| At(v[n..], i, u) && (w == u || w == u + "\"");
    assert v[n + i..n + i + |u|] == v[n..][i..i + |u|];
    assert At(v, n + i, u);
  }

  /** The next word where v is left of a value. */
  lemma WordOf(v: string, kind: string, blob: string) returns (w: string)
    requires v == "" || !Blank(v[0])
    ensures w == Word(v + Closing(kind, blob)) && w != "" && Stretch(v, w)
  {
    var tail := Closing(kind, blob);
    ClosingSplits(kind, blob);
    WordAppend(v, tail);
    w := Word(v + tail);
    var u := Word(v);
    assert v[0..|u|] == u;
    assert At(v, 0, u);
    assert v != "" && !BlankFree(v) ==> u == [v[0]] + Word(v[1..]);
  }

  /** The field after the last word of a value is the key's type. */
  lemma FieldAfterValue(v: string, kind: string, blob: string)
    requires BlankFree(v) && kind != "" && BlankFree(kind)
    ensures Field(v + Closing(kind, blob), 2) == kind
  {
    ClosingSplits(kind, blob);
    var head, rest := v + "\"", " " + (kind + (" " + blob));
    assert BlankFree("\"");
    assert forall c :: c in head ==> c in v || c in "\"";
    F.Assoc(v, "\"", rest);
    NextField(head, rest, 2);
    FieldAfterBlank(kind + (" " + blob), 1);
    NextField(kind, " " + blob, 2);
  }

  /** The field after another word of it is a stretch of the value. */
  lemma FieldInValue(v: string, kind: string, blob: string) returns (w: string)
    requires v != "" && !Blank(v[0]) && !BlankFree(v)
    ensures w == Field(v + Closing(kind, blob), 2) && w != "" && Stretch(v, w)
  {
    var tail := Closing(kind, blob);
    ClosingSplits(kind, blob);
    WordAppend(v, tail);
    WordAppend(v, "");
    assert v + "" == v;
    var n := |Word(v)|;
    var head, left := v[..n], v[n..];
    assert head == Word(v) && head == [v[0]] + Word(v[1..]);
    assert v == head + left;
    F.Assoc(head, left, tail);
    NextField(head, left + tail, 2);
    w := WordBehind(left, kind, blob);
    StretchOfRest(v, n, w);
  }

  /** The next word behind blanks. */
  lemma WordBehind(left: string, kind: string, blob: string) returns (w: string)
    ensures w == Field(left + Closing(kind, blob), 1) && w != "" && Stretch(left, w)
  {
    ClosingSplits(kind, blob);
    SkipAppend(left, Closing(kind, blob));
    SkipSuffix(left);
    w := WordOf(SkipBlanks(left), kind, blob);
    StretchOfRest(left, |left| - |SkipBlanks(left)|, w);
  }

  /** The third field of a trust line whose value has a blank in it: the key's type, or a stretch of the value. */
  lemma FieldBehindBlank(kind: string, blob: string, value: string) returns (w: string)
    requires !BlankFree(value) && kind != "" && BlankFree(kind)
    ensures w == Field(TrustText(kind + " " + blob, value), 3) && w != "" && (w == kind || Stretch(value, w))
  {
    var tail := Closing(kind, blob);
    WordAppend(value, "");
    assert value + "" == value;
    var n := |Word(value)|;
    var left := value[n..];
    FirstField(kind, blob, value, n);
    ClosingSplits(kind, blob);
    SkipAppend(left, tail);
    SkipSuffix(left);
    var v, m := SkipBlanks(left), |left| - |SkipBlanks(left)|;
    SameFields(left + tail, v + tail);
    if BlankFree(v) {
      FieldAfterValue(v, kind, blob);
      w := kind;
    } else {
      w := FieldInValue(v, kind, blob);
      StretchOfRest(left, m, w);
      StretchOfRest(value, n, w);
    }
  }

  lemma SameFields(s: string, t: string)
    requires SkipBlanks(s) == t && SkipBlanks(t) == t
    ensures Field(s, 2) == Field(t, 2)
  {
  }

  lemma OpeningFree(v: string)
    requires BlankFree(v)
    ensures BlankFree("cert-authority,principals=\"" + v)
  {
    var open := "cert-authority,principals=\"";
    assert BlankFree(open);
    assert forall c :: c in open + v ==> c in open || c in v;
  }

  lemma TextSplits(kind: string, blob: string, value: string)
    ensures TrustText(kind + " " + blob, value) == "cert-authority,principals=\"" + value + Closing(kind, blob)
  {
    F.Assoc("cert-authority,principals=\"" + value, "\" ", kind + " " + blob);
    F.Assoc("\" ", kind + " ", blob);
    F.Assoc("\" ", kind, " ");
  }

  /** The first field of a trust line ends at the first blank of the value. */
  lemma FirstField(kind: string, blob: string, value: string, n: nat)
    requires n < |value| && value[..n] == Word(value) && Blank(value[n])
    ensures Field(TrustText(kind + " " + blob, value), 3) == Field(value[n..] + Closing(kind, blob), 2)
  {
    var open, left, tail := "cert-authority,principals=\"", value[n..], Closing(kind, blob);
    var head := open + value[..n];
    OpeningFree(value[..n]);
    F.Assoc(open, value[..n], left);
    assert value[..n] + left == value;
    F.Assoc(head, left, tail);
    TextSplits(kind, blob, value);
    NextField(head, left + tail, 3);
  }

  /** A key text of two words, the second of which stands neither in the first nor in the value. */
  predicate KeyWords(kind: string, blob: string, value: string) {
    && kind != "" && blob != "" && BlankFree(kind) && BlankFree(blob) && '"' !in blob
    && !Contains(kind, blob) && !Contains(value, blob)
  }

  lemma PartFree(s: string, i: nat, u: string, blob: string)
    requires At(s, i, u) && !Contains(s, blob)
    ensures !Contains(u, blob)
  {
    if Contains(u, blob) {
      var j := Index(u, blob).value;
      assert s[i + j..i + j + |blob|] == u[j..j + |blob|];
      assert At(s, i + j, blob);
    }
  }

  lemma QuoteInside(u: string, blob: string, j: nat)
    requires At(u + "\"", j, blob) && blob != ""
    ensures At(u, j, blob) || '"' in blob
  {
    var q := u + "\"";
    if j + |blob| <= |u| {
      assert u[j..j + |blob|] == q[j..j + |blob|];
    } else {
      assert q[j..j + |blob|][|u| - j] == '"';
    }
  }

  lemma QuotedFree(u: string, blob: string)
    requires !Contains(u, blob) && '"' !in blob && blob != ""
    ensures !Contains(u + "\"", blob)
  {
    if Contains(u + "\"", blob) {
      QuoteInside(u, blob, Index(u + "\"", blob).value);
    }
  }

  /** With a blank in a name the third field is another word, and one without the key's blob in it. */
  lemma OtherField(kind: string, blob: string, value: string) returns (w: string)
    requires KeyWords(kind, blob, value) && !BlankFree(value)
    ensures w == Field(TrustText(kind + " " + blob, value), 3) && w != "" && !Contains(w, blob)
    ensures NoBreak(kind) && NoBreak(value) ==> NoBreak(w)
  {
    w := FieldBehindBlank(kind, blob, value);
    if w != kind {
      var i: nat, u :| At(value, i, u) && (w == u || w == u + "\"");
      PartFree(value, i, u, blob);
      QuotedFree(u, blob);
      assert forall c :: c in u ==> c in value[i..i + |u|];
    }
  }

  lemma BlankFreeHead(value: string)
    requires BlankFree(value)
    ensures BlankFree("cert-authority,principals=\"" + value + "\"")
  {
    var a, b := "cert-authority,principals=\"", "\"";
    assert BlankFree(a) && BlankFree(b);
    assert forall c :: c in a + value + b ==> c in a || c in value || c in b;
  }

  lemma BlobField(kind: string, blob: string, value: string)
    requires BlankFree(kind) && BlankFree(blob) && BlankFree(value) && kind != "" && blob != ""
    ensures Field(TrustText(kind + " " + blob, value), 3) == blob
  {
    var head := "cert-authority,principals=\"" + value + "\"";
    BlankFreeHead(value);
    assert TrustText(kind + " " + blob, value) == head + (" " + (kind + (" " + blob)));
    NextField(head, " " + (kind + (" " + blob)), 3);
    FieldAfterBlank(kind + (" " + blob), 2);
    NextField(kind, " " + blob, 2);
    FieldAfterBlank(blob, 1);
    NextField(blob, "", 2);
    assert blob + "" == blob;
  }

  lemma ContainsSelf(s: string)
    ensures Contains(s, s)
  {
    assert s[0..|s|] == s;
    assert At(s, 0, s);
  }

  /** The third field of a trust line is the key's own blob exactly if no listed name has a blank in it. */
  lemma ThirdField(kind: string, blob: string, value: string)
    requires KeyWords(kind, blob, value)
    ensures Field(TrustText(kind + " " + blob, value), 3) == blob <==> ' ' !in value && '\t' !in value
  {
    if BlankFree(value) {
      BlobField(kind, blob, value);
    } else {
      var w := OtherField(kind, blob, value);
      ContainsSelf(blob);
    }
  }

  /** A line that does not carry the key survives in every file. */
  ghost predicate Spares(line: string, blob: string) {
    forall t, l :: Terminated(t) && l in Lines(t) && !Contains(l, blob) ==> l in Lines(Installed(t, line))
  }

  /** So an install spares every line without the key exactly if no listed name has a blank in it. */
  lemma SparesIff(kind: string, blob: string, value: string)
    requires KeyWords(kind, blob, value) && NoBreak(kind) && NoBreak(blob) && NoBreak(value)
    ensures Spares(TrustText(kind + " " + blob, value), blob) <==> ' ' !in value && '\t' !in value
  {
    var line := TrustText(kind + " " + blob, value);
    ThirdField(kind, blob, value);
    assert NoBreak(line);
    if BlankFree(value) {
      OwnFieldSpares(line, blob);
    } else {
      var w := OtherField(kind, blob, value);
      ForeignLost(line, blob, w);
    }
  }

  lemma OwnFieldSpares(line: string, blob: string)
    requires NoBreak(line) && Field(line, 3) == blob
    ensures Spares(line, blob)
  {
    forall t, l | Terminated(t) && l in Lines(t) && !Contains(l, blob)
      ensures l in Lines(Installed(t, line))
    {
      InstalledLines(t, line);
      if l != line {
        Survives(t, line, l);
      }
    }
  }

  /** A user's own line that carries the third field but not the key is lost. */
  lemma ForeignLost(line: string, blob: string, w: string)
    requires NoBreak(line) && w == Field(line, 3) && w != "" && NoBreak(w) && !Contains(w, blob) && w != line
    ensures !Spares(line, blob)
  {
    var t := w + "\n";
    LinesCons(w, "");
    assert w + "\n" + "" == t && Lines("") == [];
    assert Lines(t) == [w];
    assert w in [w];
    UnlinesTerminated([w]);
    ContainsSelf(w);
    assert Terminated(t);
    Survives(t, line, w);
  }

  // ---- In the fleet ----

  /** Any line that trusts k carries this blob. */
  ghost predicate Carries(codec: Codec, k: PublicKey, blob: string) {
    forall l :: TrustedKey(codec, l) == Some(k) ==> Contains(l, blob)
  }

  /** An install that had to write leaves exactly one line for the key: the bundle's. */
  lemma InstallConverges(codec: Codec, t: string, k: PublicKey, ps: seq<string>)
    requires Faithful(codec) && PlainNames(ps) && Fits(t, TrustLine(codec, k, ps))
             && TrustLine(codec, k, ps) !in Lines(t)
    requires Carries(codec, k, Field(TrustLine(codec, k, ps), 3))
    ensures F.Only(Lines(Installed(t, TrustLine(codec, k, ps))), Trusting(codec, {k})) == [TrustLine(codec, k, ps)]
  {
    var line := TrustLine(codec, k, ps);
    var key, ours := Field(line, 3), Trusting(codec, {k});
    TrustLineTrusts(codec, k, ps);
    var kept := if Grep(t, key) then F.Without(Lines(t), Carrying(key)) else Lines(t);
    F.Members(Lines(t), Carrying(key));
    forall l | l in kept
      ensures !ours(l)
    {
      assert !Contains(l, key);
    }
    if Grep(t, key) {
      KeptLines(t, key, line);
    } else {
      AppendedLines(t, line);
    }
    F.NonePass(kept, ours);
    F.Snoc(kept, line, ours);
    assert [] + [line] == [line];
  }

  /** A client's install leaves no line for the key. */
  lemma ClientInstallStrips(codec: Codec, t: string, k: PublicKey)
    requires Carries(codec, k, Field(KeyText(codec, k), 2)) && Field(KeyText(codec, k), 2) != ""
    ensures k !in TrustedKeys(codec, ClientInstalled(t, KeyText(codec, k)))
  {
    var key := Field(KeyText(codec, k), 2);
    KeptLines(t, key, "");
    F.Members(Lines(t), Carrying(key));
  }

  /**
   The bundle's line arrives as a line of its own, or glued to the last one is not read as a line of this instance.
   */
  ghost predicate Harmless(codec: Codec, minted: set<PublicKey>, t: string, line: string) {
    Fits(t, line) || (Lines(t) != [] ==> Foreign(codec, minted, Lines(t)[|Lines(t)| - 1] + line))
  }

  ghost predicate Foreign(codec: Codec, minted: set<PublicKey>, l: string) {
    forall k :: TrustedKey(codec, l) == Some(k) ==> k !in minted
  }

  lemma GluedMayWrite(codec: Codec, w: World, a: Account, line: string)
    requires NoBreak(line) && !Fits(FilesAt(w.hosts, a).keys, line)
    requires Harmless(codec, w.minted, FilesAt(w.hosts, a).keys, line)
    ensures MayWrite(codec, w, a, Installed(FilesAt(w.hosts, a).keys, line))
  {
    var t := FilesAt(w.hosts, a).keys;
    var init, last := Glued(t, line);
    assert Lines(t)[|Lines(t)| - 1] == last;
    forall l, k | l in Lines(Installed(t, line)) && TrustedKey(codec, l) == Some(k) && k in w.minted
      ensures MayPut(codec, w, a, l, k)
    {
      assert l in init || l == last + line;
      assert l in init ==> l in Lines(t);
    }
  }

  /** The install adds no line but the bundle's, which the peer may hold. */
  lemma InstallMayWrite(codec: Codec, w: World, a: Account, b: Bundle)
    requires Faithful(codec) && b in w.bundles && PlainNames(b.principals)
    requires Harmless(codec, w.minted, FilesAt(w.hosts, a).keys, TrustLine(codec, b.ca, b.principals))
    ensures MayWrite(codec, w, a, Installed(FilesAt(w.hosts, a).keys, TrustLine(codec, b.ca, b.principals)))
  {
    var line := TrustLine(codec, b.ca, b.principals);
    TrustLineTrusts(codec, b.ca, b.principals);
    if !Fits(FilesAt(w.hosts, a).keys, line) {
      GluedMayWrite(codec, w, a, line);
      return;
    }
    InstalledLines(FilesAt(w.hosts, a).keys, line);
    assert Built(codec, line, b.ca);
    assert MayTrust(codec, w, a, b.ca);
  }

  /** Nor does a client's. */
  lemma ClientMayWrite(codec: Codec, w: World, a: Account, caPub: string)
    ensures MayWrite(codec, w, a, ClientInstalled(FilesAt(w.hosts, a).keys, caPub))
  {
    var t := FilesAt(w.hosts, a).keys;
    KeptLines(t, Field(caPub, 2), "");
    F.Members(Lines(t), Carrying(Field(caPub, 2)));
  }

  /** userFileEntries: an inbound bundle ships the trust line, a client's the bare key. */
  method UserFileEntries(codec: Codec, b: Bundle) returns (trustLine: Option<string>, caPub: Option<string>)
    requires PlainNames(b.principals)
    ensures b.noInbound ==> trustLine == None && caPub == Some(codec.marshal(b.ca))
    ensures !b.noInbound ==> trustLine == Some(TrustLine(codec, b.ca, b.principals) + "\n") && caPub == None
  {
    if b.noInbound {
      return None, Some(codec.marshal(b.ca));
    }
    var line := BuildAuthorizedKeysLine(codec.marshal(b.ca), b.principals);
    PlainTrimmed(b.principals);
    return Some(line), None;
  }

  lemma PlainTrimmed(ps: seq<string>)
    requires PlainNames(ps)
    ensures TrimAll(ps) == ps
  {
    assert forall i :: 0 <= i < |ps| ==> ps[i] in ps;
  }

  /** authorized_keys after the install of a bundle. */
  ghost function BundledKeys(codec: Codec, t: string, b: Bundle): string {
    if b.noInbound then ClientInstalled(t, KeyText(codec, b.ca)) else Installed(t, TrustLine(codec, b.ca, b.principals))
  }

  /** The trust-line step of the script. */
  method InstallKeys(d: Deps, a: Account, b: Bundle) returns (keys: string)
    requires d.Valid() && b in d.bundles && PlainNames(b.principals)
    requires !b.noInbound ==>
               Harmless(d.codec, d.minted, FilesAt(d.hosts, a).keys, TrustLine(d.codec, b.ca, b.principals))
    ensures keys == BundledKeys(d.codec, FilesAt(d.hosts, a).keys, b) && MayWrite(d.codec, d.Now(), a, keys)
  {
    var t := FilesAt(d.hosts, a).keys;
    var shipped, bare := UserFileEntries(d.codec, b);
    if bare.Some? {
      keys := InstallClient(t, TrimEnd(bare.value, "\n"));
      ClientMayWrite(d.codec, d.Now(), a, KeyText(d.codec, b.ca));
    } else {
      TrustLineTrusts(d.codec, b.ca, b.principals);
      keys := InstallLine(t, TrimEnd(shipped.value, "\n"));
      InstallMayWrite(d.codec, d.Now(), a, b);
    }
  }

  /** The peer runs the install script with a bundle it was handed, at any time and as often as it likes. */
  method InstallBundle(d: Deps, a: Account, b: Bundle)
    requires d.Valid() && b in d.bundles && PlainNames(b.principals)
    requires !b.noInbound ==>
               Harmless(d.codec, d.minted, FilesAt(d.hosts, a).keys, TrustLine(d.codec, b.ca, b.principals))
    modifies d`hosts, d`log
    ensures d.Valid()
    ensures var f := FilesAt(old(d.hosts), a);
            d.hosts == old(d.hosts)[a := Files(BundledKeys(d.codec, f.keys, b), Some(b.cert),
                                               Splice(f.config, d.instanceKey, Block(d.instanceKey, b.hosts)), true)]
  {
    var keys := InstallKeys(d, a, b);
    var block := V2SshClientBlockWithHosts(d.instanceKey, b.hosts);
    WriteAll(d, a, keys, b.cert, Splice(FilesAt(d.hosts, a).config, d.instanceKey, block));
  }

  /** Its writes: the private key, the certificate, the trust line, the config block. */
  method WriteAll(d: Deps, a: Account, keys: string, cert: Cert, config: string)
    requires d.Valid() && MayWrite(d.codec, d.Now(), a, keys)
    modifies d`hosts, d`log
    ensures d.Valid() && d.hosts == old(d.hosts)[a := Files(keys, Some(cert), config, true)]
  {
    ghost var hosts := d.hosts;
    PutOne(d, a, FilesAt(d.hosts, a).(identity := true), PutIdentity(a, true));
    PutOne(d, a, FilesAt(d.hosts, a).(cert := Some(cert)), PutCert(a, Some(cert)));
    SameWrite(d.codec, d.selfName, d.Now(), hosts, a, keys);
    PutOne(d, a, FilesAt(d.hosts, a).(keys := keys), PutKeys(a, keys));
    PutOne(d, a, FilesAt(d.hosts, a).(config := config), PutConfig(a, config));
  }

  /** One write at the peer. */
  method PutOne(d: Deps, a: Account, f: Files, ghost act: Action)
    requires d.Valid() && Allowed(d.codec, d.selfName, d.Now(), act)
    requires Step(d.Now(), act) == d.Now().(hosts := d.hosts[a := f])
    modifies d`hosts, d`log
    ensures d.Valid() && d.hosts == old(d.hosts)[a := f]
  {
    d.hosts := d.hosts[a := f];
    d.Did(act);
  }

  /** What may be written depends on the authorized_keys there, not on the other files. */
  lemma SameWrite(codec: Codec, self: string, w: World, hosts: map<Account, Files>, a: Account, keys: string)
    requires MayWrite(codec, w.(hosts := hosts), a, keys) && FilesAt(w.hosts, a).keys == FilesAt(hosts, a).keys
    ensures MayWrite(codec, w, a, keys)
  {
    forall l, k | l in Lines(keys) && TrustedKey(codec, l) == Some(k) && k in w.minted
      ensures MayPut(codec, w, a, l, k)
    {
      assert MayPut(codec, w.(hosts := hosts), a, l, k);
    }
  }
}
