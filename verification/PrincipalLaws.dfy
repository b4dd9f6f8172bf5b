/** Laws of rewriting the principals of a trust line. */
module PrincipalLaws {
  import opened Wrappers
  import opened Text
  import opened Principals
  import opened AuthorizedKeys
  import opened TrustLaws
  import F = Filters

  // ---- Where the token stands ----

  /** line is pre, the first principals="v" token, and post. */
  ghost predicate Site(line: string, pre: string, v: string, post: string) {
    && line == pre + Marked(v) + post
    && '"' !in v
    && forall j: nat :: j < |pre| ==> !At(line, j, PRINCIPALS)
  }

  lemma SiteRewrites(line: string, pre: string, v: string, post: string, token: string)
    requires Site(line, pre, v, post)
    ensures RewriteLineOptions(line, token) == Some(pre + token + post)
  {
    var i, n := |pre|, |PRINCIPALS|;
    assert line[i..i + n] == PRINCIPALS;
    IndexUnique(line, PRINCIPALS, i);
    var rest := line[i + n..];
    assert rest == v + "\"" + post;
    QuoteAt(v, post);
    assert line[..i] == pre && rest[|v| + 1..] == post;
  }

  lemma QuoteAt(v: string, post: string)
    requires '"' !in v
    ensures Index(v + "\"" + post, "\"") == Some(|v|)
  {
    var rest := v + "\"" + post;
    assert rest[|v|..|v| + 1] == "\"";
    forall j: nat | j < |v|
      ensures !At(rest, j, "\"")
    {
      assert rest[j..j + 1] == [v[j]];
    }
    IndexUnique(rest, "\"", |v|);
  }

  lemma CutAt(s: string, pat: string, i: nat)
    requires At(s, i, pat)
    ensures s == s[..i] + pat + s[i + |pat|..]
  {
  }

  lemma Glue(pre: string, v: string, post: string)
    ensures pre + PRINCIPALS + (v + "\"" + post) == pre + Marked(v) + post
  {
  }

  lemma FindSite(line: string, token: string) returns (pre: string, v: string, post: string)
    requires RewriteLineOptions(line, token).Some?
    ensures Site(line, pre, v, post)
  {
    var i, n := Index(line, PRINCIPALS).value, |PRINCIPALS|;
    var rest := line[i + n..];
    var e := Index(rest, "\"").value;
    pre, v, post := line[..i], rest[..e], rest[e + 1..];
    CutAt(line, PRINCIPALS, i);
    CutAt(rest, "\"", e);
    Glue(pre, v, post);
    NoQuoteBefore(rest, e);
  }

  lemma NoQuoteBefore(rest: string, e: nat)
    requires Index(rest, "\"") == Some(e)
    ensures '"' !in rest[..e]
  {
    forall j | 0 <= j < e
      ensures rest[j] != '"'
    {
      assert !At(rest, j, "\"");
      assert rest[j..j + 1] == [rest[j]];
    }
  }

  /** Putting another quote-free value at a site leaves it the first site. */
  lemma SiteMoves(pre: string, v: string, w: string, post: string)
    requires Site(pre + Marked(v) + post, pre, v, post) && '"' !in w
    ensures Site(pre + Marked(w) + post, pre, w, post)
  {
    var a, b, n := pre + Marked(v) + post, pre + Marked(w) + post, |PRINCIPALS|;
    assert a[..|pre| + n] == pre + PRINCIPALS == b[..|pre| + n];
    forall j: nat | j < |pre|
      ensures !At(b, j, PRINCIPALS)
    {
      assert b[j..j + n] == b[..|pre| + n][j..j + n] == a[j..j + n];
      assert !At(a, j, PRINCIPALS);
    }
  }

  /** Two rewrites of a line are the last one. */
  lemma RewriteTwice(line: string, w: string, token: string)
    requires '"' !in w && RewriteLineOptions(line, Marked(w)).Some?
    ensures RewriteLineOptions(RewriteLineOptions(line, Marked(w)).value, token) == RewriteLineOptions(line, token)
  {
    var pre, v, post := FindSite(line, Marked(w));
    SiteRewrites(line, pre, v, post, Marked(w));
    SiteRewrites(line, pre, v, post, token);
    SiteMoves(pre, v, w, post);
    SiteRewrites(pre + Marked(w) + post, pre, w, post, token);
  }

  // ---- Trimming around the token ----

  lemma SiteBounds(left: string, core: string, right: string, pre: string, v: string, post: string)
    requires AllSpace(left) && AllSpace(right) && Site(left + core + right, pre, v, post)
    ensures |left| <= |pre| && |right| <= |post|
  {
    var raw, n := left + core + right, |PRINCIPALS|;
    var q := |pre| + n + |v|;
    var first, last := raw[|pre|], raw[q];
    assert first == Marked(v)[0] == 'p';
    assert last == Marked(v)[n + |v|] == '"';
    assert |pre| < |left| ==> first in left;
    assert q >= |left| + |core| ==> last in right;
  }

  lemma Surround(left: string, pre: string, m: string, post: string, right: string)
    ensures left + (pre + m + post) + right == (left + pre) + m + (post + right)
  {
  }

  lemma Cancel(left: string, a: string, b: string, right: string)
    requires left + a + right == left + b + right
    ensures a == b
  {
    assert a == (left + a + right)[|left|..|left| + |a|];
    assert b == (left + b + right)[|left|..|left| + |b|];
  }

  /** A site of a text lies in its core: the white space around the core is in pre and post. */
  lemma SiteInCore(left: string, core: string, right: string, pre: string, v: string, post: string)
    returns (pre': string, post': string)
    requires AllSpace(left) && AllSpace(right) && Site(left + core + right, pre, v, post)
    ensures pre == left + pre' && post == post' + right && Site(core, pre', v, post')
  {
    var raw, n := left + core + right, |PRINCIPALS|;
    SiteBounds(left, core, right, pre, v, post);
    pre', post' := pre[|left|..], post[..|post| - |right|];
    assert pre == left + pre' by {
      assert pre == raw[..|pre|];
    }
    assert post == post' + right by {
      assert post == raw[|raw| - |post|..];
    }
    Surround(left, pre', Marked(v), post', right);
    Cancel(left, core, pre' + Marked(v) + post', right);
    forall j: nat | j < |pre'|
      ensures !At(core, j, PRINCIPALS)
    {
      assert !At(raw, |left| + j, PRINCIPALS);
      if j + n <= |core| {
        assert core[j..j + n] == raw[|left| + j..|left| + j + n];
      }
    }
  }

  lemma TokenEnds(core: string, pre: string, v: string, w: string, post: string)
    requires core == pre + Marked(v) + post && !IsSpace(core[0]) && !IsSpace(core[|core| - 1])
    ensures var r := pre + Marked(w) + post;
            && r != "" && (r[0] == 'p' || r[0] == core[0])
            && !IsSpace(r[0]) && !IsSpace(r[|r| - 1])
  {
    var r := pre + Marked(w) + post;
    assert r[0] == if pre == "" then 'p' else core[0];
    assert r[|r| - 1] == if post == "" then '"' else core[|core| - 1];
  }

  /** Rewriting a line's token commutes with trimming it. */
  lemma RewriteInCore(raw: string, w: string)
    requires '"' !in w && RewriteLineOptions(raw, Marked(w)).Some?
    ensures RewriteLineOptions(TrimSpace(raw), Marked(w)) == Some(TrimSpace(RewriteLineOptions(raw, Marked(w)).value))
    ensures TrimSpace(raw) != ""
    ensures var r := TrimSpace(RewriteLineOptions(raw, Marked(w)).value);
            r != "" && (r[0] == 'p' || r[0] == TrimSpace(raw)[0])
  {
    var pre, v, post := FindSite(raw, Marked(w));
    SiteRewrites(raw, pre, v, post, Marked(w));
    var left, right := TrimSpaceSplits(raw);
    var pre', post' := SiteInCore(left, TrimSpace(raw), right, pre, v, post);
    SiteRewrites(TrimSpace(raw), pre', v, post', Marked(w));
    TokenEnds(TrimSpace(raw), pre', v, w, post');
    TrimSpaceUnique(left, pre' + Marked(w) + post', right);
    Surround(left, pre', Marked(w), post', right);
  }

  lemma RewrittenEnd(line: string, w: string)
    requires RewriteLineOptions(TrimEnd(line, "\r"), Marked(w)).Some?
    ensures var r := RewriteLineOptions(TrimEnd(line, "\r"), Marked(w)).value; TrimEnd(r, "\r") == r
  {
    var raw := TrimEnd(line, "\r");
    var tail := TrimEndSplits(line, "\r");
    var pre, v, post := FindSite(raw, Marked(w));
    SiteRewrites(raw, pre, v, post, Marked(w));
    var r := pre + Marked(w) + post;
    assert r[|r| - 1] == if post == "" then '"' else raw[|raw| - 1];
    TrimEndUnique(r, "", "\r");
    assert r + "" == r;
  }

  /** A rewritten line trusts the key the line trusted. */
  lemma RewriteKeepsKey(codec: Codec, line: string, w: string)
    requires Blind(codec, Core(line)) && QuoteFree(w)
    requires !Ignored(Core(line)) && RewriteLineOptions(TrimEnd(line, "\r"), Marked(w)).Some?
    ensures TrustedKey(codec, RewriteLineOptions(TrimEnd(line, "\r"), Marked(w)).value) == TrustedKey(codec, line)
  {
    var raw := TrimEnd(line, "\r");
    RewriteInCore(raw, w);
    RewrittenEnd(line, w);
    assert KeyRead(codec, RewriteLineOptions(TrimSpace(raw), Marked(w)).value) == KeyRead(codec, TrimSpace(raw));
  }

  // ---- Whole files ----

  /** Rewriting line by line, what happens to each line. */
  lemma {:induction false} MapAllEach(ls: seq<string>, f: string -> Option<string>)
    requires MapAll(ls, f).Some?
    ensures |MapAll(ls, f).value| == |ls|
    ensures forall i :: 0 <= i < |ls| ==> f(ls[i]) == Some(MapAll(ls, f).value[i])
  {
    if ls != [] {
      MapAllEach(ls[1..], f);
    }
  }

  /** Mapping f and then g is mapping g when g does not see what f did. */
  lemma {:induction false} MapAllTwice(ls: seq<string>, f: string -> Option<string>, g: string -> Option<string>)
    requires MapAll(ls, f).Some?
    requires forall l :: l in ls && f(l).Some? ==> g(f(l).value) == g(l)
    ensures MapAll(MapAll(ls, f).value, g) == MapAll(ls, g)
  {
    if ls != [] {
      MapAllTwice(ls[1..], f, g);
      assert MapAll(ls, f).value[1..] == MapAll(ls[1..], f).value;
    }
  }

  lemma MarkedNoBreak(line: string, w: string)
    requires NoBreak(line) && NoBreak(w) && RewriteLineOptions(line, Marked(w)).Some?
    ensures NoBreak(RewriteLineOptions(line, Marked(w)).value)
  {
    var pre, v, post := FindSite(line, Marked(w));
    SiteRewrites(line, pre, v, post, Marked(w));
    assert line == pre + Marked(v) + post;
    assert forall c :: c in pre || c in post ==> c in line;
  }

  /** The value a rewrite for ps writes. */
  function Value(ps: seq<string>): string {
    JoinCSV(WithManager(TrimAll(ps)))
  }

  lemma ValueQuoteFree(ps: seq<string>)
    requires PlainNames(ps)
    ensures QuoteFree(Value(ps)) && TrimAll(ps) == ps
  {
    forall i | 0 <= i < |ps|
      ensures TrimAll(ps)[i] == ps[i]
    {
      assert ps[i] in ps;
    }
    assert TrimAll(ps) == ps;
    WithManagerPlain(ps);
  }

  /** What one rewrite does to one line: its trust is kept, and only a line that trusts k changes. */
  lemma RewriteLineLaw(codec: Codec, k: PublicKey, w: string, line: string)
    requires QuoteFree(w) && NoBreak(line) && (Trusts(codec, line, {k}) ==> Blind(codec, Core(line)))
    requires RewriteLine(codec, k, Marked(w), line).Some?
    ensures var r := RewriteLine(codec, k, Marked(w), line).value;
            && NoBreak(r) && TrustedKey(codec, r) == TrustedKey(codec, line)
            && (TrustedKey(codec, line) != Some(k) ==> r == line)
            && forall token :: RewriteLine(codec, k, token, r) == RewriteLine(codec, k, token, line)
  {
    if Trusts(codec, line, {k}) {
      var raw := TrimEnd(line, "\r");
      var tail := TrimEndSplits(line, "\r");
      assert NoBreak(raw);
      RewriteKeepsKey(codec, line, w);
      RewrittenEnd(line, w);
      MarkedNoBreak(raw, w);
      forall token
        ensures RewriteLineOptions(RewriteLineOptions(raw, Marked(w)).value, token) == RewriteLineOptions(raw, token)
      {
        RewriteTwice(raw, w, token);
      }
    }
  }

  lemma RewrittenLines(codec: Codec, t: string, k: PublicKey, ps: seq<string>)
    requires BlindLines(codec, t, k) && PlainNames(ps)
    requires RewrittenText(codec, t, k, ps).Ok?
    ensures Some(Lines(RewrittenText(codec, t, k, ps).value)) == MapAll(Lines(t), Rewriter(codec, k, Marked(Value(ps))))
    ensures Terminated(RewrittenText(codec, t, k, ps).value)
  {
    var f := Rewriter(codec, k, Marked(Value(ps)));
    var ls := MapAll(Lines(t), f).value;
    LinesHaveNoBreak(t);
    ValueQuoteFree(ps);
    MapAllEach(Lines(t), f);
    forall i | 0 <= i < |ls|
      ensures NoBreak(ls[i])
    {
      RewriteLineLaw(codec, k, Value(ps), Lines(t)[i]);
    }
    LinesUnlines(ls);
    UnlinesTerminated(ls);
  }

  /**
   A principal rewrite keeps the file's lines in place: each line trusts what it trusted, and a line
   that does not trust k is unchanged.
   */
  lemma RewriteLaw(codec: Codec, t: string, k: PublicKey, ps: seq<string>)
    requires BlindLines(codec, t, k) && PlainNames(ps)
    requires RewrittenText(codec, t, k, ps).Ok?
    ensures var ls, ls' := Lines(t), Lines(RewrittenText(codec, t, k, ps).value);
            && |ls'| == |ls|
            && (forall i :: 0 <= i < |ls| ==> TrustedKey(codec, ls'[i]) == TrustedKey(codec, ls[i]))
            && (forall i :: 0 <= i < |ls| ==> TrustedKey(codec, ls[i]) != Some(k) ==> ls'[i] == ls[i])
    ensures TrustedKeys(codec, RewrittenText(codec, t, k, ps).value) == TrustedKeys(codec, t)
  {
    var f := Rewriter(codec, k, Marked(Value(ps)));
    var t' := RewrittenText(codec, t, k, ps).value;
    LinesHaveNoBreak(t);
    ValueQuoteFree(ps);
    MapAllEach(Lines(t), f);
    RewrittenLines(codec, t, k, ps);
    forall i | 0 <= i < |Lines(t)|
      ensures TrustedKey(codec, Lines(t')[i]) == TrustedKey(codec, Lines(t)[i])
      ensures TrustedKey(codec, Lines(t)[i]) != Some(k) ==> Lines(t')[i] == Lines(t)[i]
    {
      RewriteLineLaw(codec, k, Value(ps), Lines(t)[i]);
    }
    SameTrust(codec, t, t');
  }

  lemma SameTrust(codec: Codec, t: string, t': string)
    requires |Lines(t')| == |Lines(t)|
    requires forall i :: 0 <= i < |Lines(t)| ==> TrustedKey(codec, Lines(t')[i]) == TrustedKey(codec, Lines(t)[i])
    ensures TrustedKeys(codec, t') == TrustedKeys(codec, t)
  {
    forall x
      ensures x in TrustedKeys(codec, t') <==> x in TrustedKeys(codec, t)
    {
      if x in TrustedKeys(codec, t') {
        var i :| 0 <= i < |Lines(t')| && TrustedKey(codec, Lines(t')[i]) == Some(x);
        assert Lines(t)[i] in Lines(t);
      }
      if x in TrustedKeys(codec, t) {
        var i :| 0 <= i < |Lines(t)| && TrustedKey(codec, Lines(t)[i]) == Some(x);
        assert Lines(t')[i] in Lines(t');
      }
    }
  }

  /** Two principal rewrites are the last one. */
  lemma RewritesCompose(codec: Codec, t: string, k: PublicKey, ps: seq<string>, qs: seq<string>)
    requires BlindLines(codec, t, k) && PlainNames(ps)
    requires RewrittenText(codec, t, k, ps).Ok?
    ensures RewrittenText(codec, RewrittenText(codec, t, k, ps).value, k, qs) == RewrittenText(codec, t, k, qs)
  {
    var f, g := Rewriter(codec, k, Marked(Value(ps))), Rewriter(codec, k, Marked(Value(qs)));
    var t' := RewrittenText(codec, t, k, ps).value;
    LinesHaveNoBreak(t);
    ValueQuoteFree(ps);
    RewrittenLines(codec, t, k, ps);
    forall l | l in Lines(t) && f(l).Some?
      ensures g(f(l).value) == g(l)
    {
      RewriteLineLaw(codec, k, Value(ps), l);
    }
    MapAllTwice(Lines(t), f, g);
    RewriteLaw(codec, t, k, ps);
    SameSome(codec, t, t', k);
  }

  lemma SameSome(codec: Codec, t: string, t': string, k: PublicKey)
    requires |Lines(t')| == |Lines(t)|
    requires forall i :: 0 <= i < |Lines(t)| ==> TrustedKey(codec, Lines(t')[i]) == TrustedKey(codec, Lines(t)[i])
    ensures SomeTrusts(codec, Lines(t'), k) <==> SomeTrusts(codec, Lines(t), k)
  {
    if i :| 0 <= i < |Lines(t)| && Trusts(codec, Lines(t)[i], {k}) {
      assert Trusts(codec, Lines(t')[i], {k});
    }
    if i :| 0 <= i < |Lines(t')| && Trusts(codec, Lines(t')[i], {k}) {
      assert Trusts(codec, Lines(t)[i], {k});
    }
  }

  /** The principals token of a trust line is its first, right after the cert-authority option. */
  lemma TrustTextSite(ct: string, v: string)
    requires '"' !in v
    ensures Site(TrustText(ct, v), "cert-authority,", v, " " + ct)
  {
    var l := TrustText(ct, v);
    TokenInText(ct, v);
    assert l[..27] == "cert-authority,principals=\"";
    forall j: nat | j < 15
      ensures !At(l, j, PRINCIPALS)
    {
      assert l[j..j + 12] == l[..27][j..j + 12];
      assert l[j..j + 12][..2] == [l[..27][j], l[..27][j + 1]];
      assert PRINCIPALS[..2] == "pr";
    }
  }

  /** On a built trust line the parser is blind. */
  lemma TrustLineBlind(codec: Codec, k: PublicKey, ps: seq<string>)
    requires Faithful(codec) && PlainNames(ps)
    ensures Blind(codec, Core(TrustLine(codec, k, ps)))
  {
    var v := JoinCSV(WithManager(ps));
    WithManagerPlain(ps);
    TrustLineTrusts(codec, k, ps);
    TextTopLevel(KeyText(codec, k), v);
  }

  lemma TextTopLevel(ct: string, v: string)
    requires QuoteFree(v)
    ensures TopLevel(TrustText(ct, v))
  {
    TrustTextSite(ct, v);
    assert '"' !in "cert-authority,";
    TopLevelSite(TrustText(ct, v), "cert-authority,", v, " " + ct);
  }

  lemma TopLevelSite(line: string, pre: string, v: string, post: string)
    requires Site(line, pre, v, post) && '"' !in pre && '\\' !in v
    ensures TopLevel(line)
  {
    var i, n := |pre|, |PRINCIPALS|;
    assert line[i..i + n] == PRINCIPALS;
    IndexUnique(line, PRINCIPALS, i);
    var rest := line[i + n..];
    assert rest == v + "\"" + post;
    QuoteAt(v, post);
    assert line[..i] == pre && rest[..|v|] == v;
  }

  lemma Retoken(ct: string, v: string, w: string)
    requires '"' !in v && ct != "" && ct[|ct| - 1] != '\r'
    ensures RewriteLineOptions(TrimEnd(TrustText(ct, v), "\r"), Marked(w)) == Some(TrustText(ct, w))
  {
    var l := TrustText(ct, v);
    assert l[|l| - 1] == ct[|ct| - 1];
    TrimEndUnique(l, "", "\r");
    assert l + "" == l;
    TrustTextSite(ct, v);
    SiteRewrites(l, "cert-authority,", v, " " + ct, Marked(w));
    TokenInText(ct, w);
  }

  lemma TokenInText(ct: string, v: string)
    ensures "cert-authority," + Marked(v) + (" " + ct) == TrustText(ct, v)
  {
  }

  /** Rewriting a built trust line builds the line for the new principals. */
  lemma RewriteBuiltLine(codec: Codec, k: PublicKey, ps: seq<string>, qs: seq<string>)
    requires Faithful(codec) && PlainNames(ps) && PlainNames(qs)
    ensures RewriteLine(codec, k, Marked(Value(qs)), TrustLine(codec, k, ps)) == Some(TrustLine(codec, k, qs))
  {
    ValueQuoteFree(ps);
    ValueQuoteFree(qs);
    TrustLineTrusts(codec, k, ps);
    Retoken(KeyText(codec, k), Value(ps), Value(qs));
  }

  /** A rotation followed by a principal rewrite is the rotation with the new principals. */
  lemma RewriteAfterReplace(codec: Codec, t: string,
                            keys: set<PublicKey>, k: PublicKey, ps: seq<string>, qs: seq<string>)
    requires Faithful(codec) && PlainNames(ps) && PlainNames(qs) && Unknown(codec, t, k)
    ensures RewrittenText(codec, ReplacedText(codec, t, keys, TrustLine(codec, k, ps) + "\n"), k, qs)
            == Ok(ReplacedText(codec, t, keys, TrustLine(codec, k, qs) + "\n"))
  {
    var a, b := TrustLine(codec, k, ps), TrustLine(codec, k, qs);
    var ours, f := Trusting(codec, keys), Rewriter(codec, k, Marked(Value(qs)));
    ValueQuoteFree(qs);
    TrustLineTrusts(codec, k, ps);
    TrustLineTrusts(codec, k, qs);
    RewriteBuiltLine(codec, k, ps, qs);
    ReplacedLines(codec, t, keys, a + "\n");
    forall l | l in Lines(t)
      ensures f(l) == Some(l)
    {
      assert TrustedKey(codec, l).Some? ==> TrustedKey(codec, l).value in TrustedKeys(codec, t);
    }
    MapOverReplaced(Lines(t), ours, a, b, f);
    F.ReplacedMembers(Lines(t), ours, a);
    var ls := F.Replaced(Lines(t), ours, a);
    assert a in ls;
    var i :| 0 <= i < |ls| && ls[i] == a;
    assert Trusts(codec, ls[i], {k});
  }

  lemma MapOverReplaced(ls: seq<string>, ours: string -> bool, a: string, b: string, f: string -> Option<string>)
    requires f(a) == Some(b) && forall l :: l in ls ==> f(l) == Some(l)
    ensures MapAll(F.Replaced(ls, ours, a), f) == Some(F.Replaced(ls, ours, b))
  {
    if F.First(ls, ours) == |ls| {
      MapIdentity(ls, f);
      MapAllSnoc(ls, a, f);
    } else {
      var head, m, tail := F.Cut(ls, ours);
      F.SwappedAt(head, m, tail, ours, a);
      F.SwappedAt(head, m, tail, ours, b);
      F.Members(tail, ours);
      MapIdentity(head, f);
      MapIdentity(F.Without(tail, ours), f);
      MapAllSnoc(head, a, f);
      MapAllAppend(head + [a], F.Without(tail, ours), f);
    }
  }

  lemma {:induction false} MapIdentity(ls: seq<string>, f: string -> Option<string>)
    requires forall l :: l in ls ==> f(l) == Some(l)
    ensures MapAll(ls, f) == Some(ls)
  {
    if ls != [] {
      MapIdentity(ls[1..], f);
      assert [ls[0]] + ls[1..] == ls;
    }
  }

  lemma SplitAtOnly(ls: seq<string>, ours: string -> bool, m: string) returns (head: seq<string>, tail: seq<string>)
    requires F.Only(ls, ours) == [m]
    ensures ls == head + [m] + tail && ours(m)
    ensures (forall l :: l in head ==> !ours(l)) && (forall l :: l in tail ==> !ours(l))
  {
    F.Members(ls, ours);
    assert m in [m];
    var i :| 0 <= i < |ls| && ls[i] == m;
    assert F.First(ls, ours) <= i;
    var m';
    head, m', tail := F.Cut(ls, ours);
    F.FilterAround(head, m', tail, ours);
    assert F.Only(ls, ours) == [m'] + F.Only(tail, ours);
    assert ([m'] + F.Only(tail, ours))[0] == m' && F.Only(tail, ours) == [];
    F.Members(tail, ours);
  }

  /** A file whose one line for k is a built trust line becomes the file with the line built from the new principals. */
  lemma RewriteOnlyLine(codec: Codec, t: string, k: PublicKey, ps: seq<string>, qs: seq<string>)
    requires Faithful(codec) && PlainNames(ps) && PlainNames(qs)
    requires F.Only(Lines(t), Trusting(codec, {k})) == [TrustLine(codec, k, ps)]
    ensures var r := RewrittenText(codec, t, k, qs);
            && r.Ok?
            && F.Only(Lines(r.value), Trusting(codec, {k})) == [TrustLine(codec, k, qs)]
            && F.Without(Lines(r.value), Trusting(codec, {k})) == F.Without(Lines(t), Trusting(codec, {k}))
  {
    var ours, a, b := Trusting(codec, {k}), TrustLine(codec, k, ps), TrustLine(codec, k, qs);
    var f := Rewriter(codec, k, Marked(Value(qs)));
    var head, tail := SplitAtOnly(Lines(t), ours, a);
    RewriteBuiltLine(codec, k, ps, qs);
    ValueQuoteFree(qs);
    MapIdentity(head, f);
    MapIdentity(tail, f);
    MapAllSnoc(head, a, f);
    MapAllAppend(head + [a], tail, f);
    SomeAt(codec, head, a, tail, k);
    OnlyLineBlind(codec, t, k, ps);
    RewrittenLines(codec, t, k, qs);
    TrustLineTrusts(codec, k, qs);
    F.FilterAround(head, a, tail, ours);
    F.FilterAround(head, b, tail, ours);
    F.NonePass(tail, ours);
  }

  lemma OnlyLineBlind(codec: Codec, t: string, k: PublicKey, ps: seq<string>)
    requires Faithful(codec) && PlainNames(ps)
    requires F.Only(Lines(t), Trusting(codec, {k})) == [TrustLine(codec, k, ps)]
    ensures BlindLines(codec, t, k)
  {
    TrustLineBlind(codec, k, ps);
    F.Members(Lines(t), Trusting(codec, {k}));
    forall l | l in Lines(t) && Trusts(codec, l, {k})
      ensures l == TrustLine(codec, k, ps)
    {
      assert Trusting(codec, {k})(l);
      assert l in F.Only(Lines(t), Trusting(codec, {k}));
    }
  }

  lemma SomeAt(codec: Codec, head: seq<string>, m: string, tail: seq<string>, k: PublicKey)
    requires Trusts(codec, m, {k})
    ensures SomeTrusts(codec, head + [m] + tail, k)
  {
    assert (head + [m] + tail)[|head|] == m;
  }

  // ---- Built lines only ----

  /** The line is a built trust line for k. */
  ghost predicate Built(codec: Codec, l: string, k: PublicKey) {
    exists ps :: PlainNames(ps) && l == TrustLine(codec, k, ps)
  }

  /** Every line of the file that trusts one of the keys is a built one. */
  ghost predicate BuiltLines(codec: Codec, t: string, keys: set<PublicKey>) {
    forall l, k :: l in Lines(t) && TrustedKey(codec, l) == Some(k) && k in keys ==> Built(codec, l, k)
  }

  lemma BuiltBlind(codec: Codec, t: string, keys: set<PublicKey>, k: PublicKey)
    requires Faithful(codec) && BuiltLines(codec, t, keys) && k in keys
    ensures BlindLines(codec, t, k)
  {
    forall l | l in Lines(t) && Trusts(codec, l, {k})
      ensures Blind(codec, Core(l))
    {
      assert Built(codec, l, k);
      var ps :| PlainNames(ps) && l == TrustLine(codec, k, ps);
      TrustLineBlind(codec, k, ps);
    }
  }

  lemma BuiltRewritten(codec: Codec, l: string, k: PublicKey, qs: seq<string>)
    requires Faithful(codec) && PlainNames(qs) && Built(codec, l, k)
    ensures RewriteLine(codec, k, Marked(Value(qs)), l) == Some(TrustLine(codec, k, qs))
  {
    var ps :| PlainNames(ps) && l == TrustLine(codec, k, ps);
    RewriteBuiltLine(codec, k, ps, qs);
  }

  /**
   A principal rewrite of a file with built lines leaves its other lines, and puts built ones in place of built ones.
   */
  lemma RewriteBuilds(codec: Codec, t: string, keys: set<PublicKey>, k: PublicKey, qs: seq<string>)
    requires Faithful(codec) && PlainNames(qs) && BuiltLines(codec, t, keys) && k in keys
    requires RewrittenText(codec, t, k, qs).Ok?
    ensures BlindLines(codec, t, k)
    ensures forall l :: l in Lines(RewrittenText(codec, t, k, qs).value) ==>
              l in Lines(t) || l == TrustLine(codec, k, qs)
    ensures k in TrustedKeys(codec, t)
  {
    var f, t' := Rewriter(codec, k, Marked(Value(qs))), RewrittenText(codec, t, k, qs).value;
    BuiltBlind(codec, t, keys, k);
    RewrittenLines(codec, t, k, qs);
    MapAllEach(Lines(t), f);
    forall i | 0 <= i < |Lines(t')|
      ensures Lines(t')[i] in Lines(t) || Lines(t')[i] == TrustLine(codec, k, qs)
    {
      var l := Lines(t)[i];
      assert l in Lines(t);
      if Trusts(codec, l, {k}) {
        BuiltRewritten(codec, l, k, qs);
      }
    }
    SomeTrusted(codec, t, k);
  }

  lemma SomeTrusted(codec: Codec, t: string, k: PublicKey)
    requires SomeTrusts(codec, Lines(t), k)
    ensures k in TrustedKeys(codec, t)
  {
    var i :| 0 <= i < |Lines(t)| && Trusts(codec, Lines(t)[i], {k});
    assert Lines(t)[i] in Lines(t);
  }
}
