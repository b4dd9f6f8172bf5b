/**
 Laws of the authorized_keys rewrites: rotations chain, a replacement heals a file, principal
 rewrites compose, and a written trust line is accepted exactly as written.
 */
module TrustLaws {
  import opened Wrappers
  import opened Text
  import opened Principals
  import opened AuthorizedKeys
  import F = Filters

  // ---- What is assumed of the ssh library ----

  /** A value that stands in quotes as it is: no quote ends it, and no backslash escapes the closing one. */
  ghost predicate QuoteFree(v: string) {
    '"' !in v && '\\' !in v && NoBreak(v)
  }

  /** The key text of a CA public key, as a trust line carries it. */
  function KeyText(codec: Codec, k: PublicKey): string {
    TrimEnd(codec.marshal(k), "\n")
  }

  /** MarshalAuthorizedKey yields one line of non-blank text. */
  ghost predicate MarshalsLines(codec: Codec) {
    forall k :: var ct := KeyText(codec, k);
                && codec.marshal(k) == ct + "\n"
                && ct != "" && NoBreak(ct) && !IsSpace(ct[|ct| - 1])
  }

  /** ParseAuthorizedKey reads a trust line back: the key, the cert-authority option and the principals option. */
  ghost predicate ReadsTrustLines(codec: Codec) {
    forall k, v :: QuoteFree(v) ==>
      codec.parse(TrustText(KeyText(codec, k), v)) == Parsed(k, ["cert-authority", Marked(v)])
  }

  /** The key read from this line does not depend on the value of its principals token. */
  ghost predicate Blind(codec: Codec, l: string) {
    forall v :: QuoteFree(v) && RewriteLineOptions(l, Marked(v)).Some? ==>
      KeyRead(codec, RewriteLineOptions(l, Marked(v)).value) == KeyRead(codec, l)
  }

  /** The first principals token opens outside quotes, and nothing in its value is escaped. */
  predicate TopLevel(l: string) {
    match Index(l, PRINCIPALS)
    case None => true
    case Some(i) =>
      var rest := l[i + |PRINCIPALS|..];
      '"' !in l[..i] && (Index(rest, "\"").Some? ==> '\\' !in rest[..Index(rest, "\"").value])
  }

  /** The parser is blind on lines whose token stands at top level. */
  ghost predicate PrincipalsBlind(codec: Codec) {
    forall l :: TopLevel(l) ==> Blind(codec, l)
  }

  /** It is blind on every line of the file that trusts k. */
  ghost predicate BlindLines(codec: Codec, t: string, k: PublicKey) {
    forall l :: l in Lines(t) && Trusts(codec, l, {k}) ==> Blind(codec, Core(l))
  }

  ghost predicate Faithful(codec: Codec) {
    MarshalsLines(codec) && ReadsTrustLines(codec) && PrincipalsBlind(codec)
  }

  // ---- Trust lines ----

  /** The trust line for k that admits the manager and ps. */
  function TrustLine(codec: Codec, k: PublicKey, ps: seq<string>): string {
    TrustText(KeyText(codec, k), JoinCSV(WithManager(ps)))
  }

  ghost predicate PlainNames(ps: seq<string>) {
    forall p :: p in ps ==> PlainName(p)
  }

  lemma WithManagerPlain(ps: seq<string>)
    requires PlainNames(ps)
    ensures forall p :: p in WithManager(ps) ==> '"' !in p && '\\' !in p && ',' !in p && NoBreak(p)
    ensures QuoteFree(JoinCSV(WithManager(ps)))
  {
    WithManagerLists(ps);
    JoinCSVFree(WithManager(ps), '"');
    JoinCSVFree(WithManager(ps), '\\');
    JoinCSVFree(WithManager(ps), '\n');
  }

  lemma TrustTextCore(ct: string, v: string)
    requires ct != "" && NoBreak(ct) && !IsSpace(ct[|ct| - 1]) && QuoteFree(v)
    ensures Core(TrustText(ct, v)) == TrustText(ct, v)
    ensures NoBreak(TrustText(ct, v)) && !Ignored(TrustText(ct, v))
    ensures TrimEnd(TrustText(ct, v), "\n") == TrustText(ct, v)
    ensures TrimEnd(TrustText(ct, v) + "\n", "\n") == TrustText(ct, v)
  {
    var l := TrustText(ct, v);
    TrustTextEnds(ct, v);
    TrimEndUnique(l, "", "\r");
    TrimEndUnique(l, "", "\n");
    TrimEndUnique(l, "\n", "\n");
    TrimSpaceUnique("", l, "");
    assert l + "" == l && "" + l + "" == l;
  }

  lemma TrustTextEnds(ct: string, v: string)
    requires ct != "" && NoBreak(ct) && QuoteFree(v)
    ensures var l := TrustText(ct, v); l != "" && l[|l| - 1] == ct[|ct| - 1] && l[0] == 'c' && NoBreak(l)
  {
  }

  /** A written trust line is one line, and trusts the key it was written for. */
  lemma TrustLineTrusts(codec: Codec, k: PublicKey, ps: seq<string>)
    requires Faithful(codec) && PlainNames(ps)
    ensures TrustedKey(codec, TrustLine(codec, k, ps)) == Some(k)
    ensures NoBreak(TrustLine(codec, k, ps)) && TrimEnd(TrustLine(codec, k, ps) + "\n", "\n") == TrustLine(codec, k, ps)
    ensures Core(TrustLine(codec, k, ps)) == TrustLine(codec, k, ps) && !Ignored(TrustLine(codec, k, ps))
  {
    WithManagerPlain(ps);
    var v := JoinCSV(WithManager(ps));
    TrustTextCore(KeyText(codec, k), v);
    ReadBack(codec, k, v);
  }

  lemma ReadBack(codec: Codec, k: PublicKey, v: string)
    requires ReadsTrustLines(codec) && QuoteFree(v)
    ensures codec.parse(TrustText(KeyText(codec, k), v)) == Parsed(k, ["cert-authority", Marked(v)])
    ensures KeyRead(codec, TrustText(KeyText(codec, k), v)) == Some(k)
  {
    NoEquals("cert-authority");
    assert ["cert-authority", Marked(v)][0] == "cert-authority";
  }

  lemma {:induction false} NoEquals(o: string)
    requires '=' !in o
    ensures OptionName(o) == o
  {
    if o != "" {
      NoEquals(o[1..]);
    }
  }

  // ---- The keys a file trusts ----

  /** Every certificate authority some line of the file trusts. */
  ghost function TrustedKeys(codec: Codec, t: string): set<PublicKey> {
    set l | l in Lines(t) && TrustedKey(codec, l).Some? :: TrustedKey(codec, l).value
  }

  lemma ReplacedLines(codec: Codec, t: string, keys: set<PublicKey>, newLine: string)
    requires NoBreak(TrimEnd(newLine, "\n"))
    ensures Lines(ReplacedText(codec, t, keys, newLine)) ==
            F.Replaced(Lines(t), Trusting(codec, keys), TrimEnd(newLine, "\n"))
    ensures Terminated(ReplacedText(codec, t, keys, newLine))
  {
    var ours, l := Trusting(codec, keys), TrimEnd(newLine, "\n");
    LinesHaveNoBreak(t);
    F.ReplacedMembers(Lines(t), ours, l);
    LinesUnlines(F.Replaced(Lines(t), ours, l));
    UnlinesTerminated(F.Replaced(Lines(t), ours, l));
  }

  lemma StrippedLines(codec: Codec, t: string, keys: set<PublicKey>)
    ensures Lines(Stripped(codec, t, keys)) == F.Without(Lines(t), Trusting(codec, keys))
    ensures Terminated(Stripped(codec, t, keys))
  {
    LinesHaveNoBreak(t);
    F.Members(Lines(t), Trusting(codec, keys));
    LinesUnlines(F.Without(Lines(t), Trusting(codec, keys)));
    UnlinesTerminated(F.Without(Lines(t), Trusting(codec, keys)));
  }

  /** After a replacement the file trusts the new line's key and what it trusted beside the retired keys. */
  lemma ReplacedKeys(codec: Codec, t: string, keys: set<PublicKey>, newLine: string, k: PublicKey)
    requires NoBreak(TrimEnd(newLine, "\n")) && TrustedKey(codec, TrimEnd(newLine, "\n")) == Some(k)
    ensures TrustedKeys(codec, ReplacedText(codec, t, keys, newLine)) == (TrustedKeys(codec, t) - keys) + {k}
  {
    var l := TrimEnd(newLine, "\n");
    ReplacedLines(codec, t, keys, newLine);
    F.ReplacedMembers(Lines(t), Trusting(codec, keys), l);
    var t' := ReplacedText(codec, t, keys, newLine);
    assert l in Lines(t');
    forall x | x in TrustedKeys(codec, t) && x !in keys
      ensures x in TrustedKeys(codec, t')
    {
      var old' :| old' in Lines(t) && TrustedKey(codec, old') == Some(x);
      assert old' in Lines(t');
    }
  }

  /** After a strip the file trusts what it trusted beside the stripped keys. */
  lemma StrippedKeys(codec: Codec, t: string, keys: set<PublicKey>)
    ensures TrustedKeys(codec, Stripped(codec, t, keys)) == TrustedKeys(codec, t) - keys
  {
    StrippedLines(codec, t, keys);
    F.Members(Lines(t), Trusting(codec, keys));
    forall x | x in TrustedKeys(codec, t) && x !in keys
      ensures x in TrustedKeys(codec, Stripped(codec, t, keys))
    {
      var l :| l in Lines(t) && TrustedKey(codec, l) == Some(x);
      assert l in Lines(Stripped(codec, t, keys));
    }
  }

  /** Stripping keeps every line that trusts none of the keys, in order, up to a final newline. */
  lemma StripLaw(codec: Codec, t: string, keys: set<PublicKey>)
    ensures F.Without(Lines(Stripped(codec, t, keys)),
                      Trusting(codec, keys)) == F.Without(Lines(t), Trusting(codec, keys))
    ensures F.Only(Lines(Stripped(codec, t, keys)), Trusting(codec, keys)) == []
    ensures TrustedKeys(codec, t) !! keys ==> Stripped(codec, t, keys) == if Terminated(t) then t else t + "\n"
  {
    StrippedLines(codec, t, keys);
    F.Idempotent(Lines(t), Trusting(codec, keys));
    if TrustedKeys(codec, t) !! keys {
      F.NonePass(Lines(t), Trusting(codec, keys));
      UnlinesLines(t);
    }
  }

  // ---- Rotations ----

  /** A file none of whose lines trusts k. */
  ghost predicate Unknown(codec: Codec, t: string, k: PublicKey) {
    k !in TrustedKeys(codec, t)
  }

  lemma WidenedAgrees(codec: Codec, t: string, keys: set<PublicKey>, wider: set<PublicKey>)
    requires keys <= wider && TrustedKeys(codec, t) * wider <= keys
    ensures forall l :: l in Lines(t) ==> Trusting(codec, keys)(l) == Trusting(codec, wider)(l)
  {
    forall l | l in Lines(t)
      ensures Trusting(codec, keys)(l) == Trusting(codec, wider)(l)
    {
      if TrustedKey(codec, l).Some? {
        assert TrustedKey(codec, l).value in TrustedKeys(codec, t);
      }
    }
  }

  /**
   Whatever lines of this instance the file carries, when each is for a key that the caller knows, the
   replacement leaves exactly the new line for this instance, and every other line as it was, in order.
   all is every key this instance ever had, keys the ones it can still read.
   */
  lemma ReplaceHeals(codec: Codec, t: string, keys: set<PublicKey>, newLine: string, k: PublicKey, all: set<PublicKey>)
    requires NoBreak(TrimEnd(newLine, "\n")) && TrustedKey(codec, TrimEnd(newLine, "\n")) == Some(k)
    requires keys <= all && TrustedKeys(codec, t) * (all + {k}) <= keys
    ensures var t' := ReplacedText(codec, t, keys, newLine);
            && F.Only(Lines(t'), Trusting(codec, all + {k})) == [TrimEnd(newLine, "\n")]
            && F.Without(Lines(t'), Trusting(codec, all + {k})) == F.Without(Lines(t), Trusting(codec, all + {k}))
  {
    WidenedAgrees(codec, t, keys, all + {k});
    ReplacedLines(codec, t, keys, newLine);
    F.ReplacedHeals(Lines(t), Trusting(codec, keys), TrimEnd(newLine, "\n"), Trusting(codec, all + {k}));
  }

  /** Rotating to k1 and then on is rotating directly, byte for byte. */
  lemma RotationChain(codec: Codec, t: string, keys: set<PublicKey>, line1: string, k1: PublicKey, line2: string)
    requires NoBreak(TrimEnd(line1, "\n")) && TrustedKey(codec, TrimEnd(line1, "\n")) == Some(k1)
    requires Unknown(codec, t, k1)
    ensures ReplacedText(codec, ReplacedText(codec, t, keys, line1), keys + {k1}, line2) ==
            ReplacedText(codec, t, keys, line2)
  {
    WidenedAgrees(codec, t, keys, keys + {k1});
    ReplacedLines(codec, t, keys, line1);
    F.ReplacedChain(Lines(t), Trusting(codec, keys), TrimEnd(line1, "\n"), Trusting(codec, keys + {k1}),
                    TrimEnd(line2, "\n"));
  }

  /** Replacing twice by the same line is replacing once exactly when the line's own key is among the retired ones. */
  lemma ReplaceAgain(codec: Codec, t: string, keys: set<PublicKey>, newLine: string, k: PublicKey)
    requires NoBreak(TrimEnd(newLine, "\n")) && TrustedKey(codec, TrimEnd(newLine, "\n")) == Some(k)
    ensures ReplacedText(codec, ReplacedText(codec, t, keys, newLine), keys,
                         newLine) == ReplacedText(codec, t, keys, newLine) <==>
            k in keys
  {
    var ls, ours, l := Lines(t), Trusting(codec, keys), TrimEnd(newLine, "\n");
    ReplacedLines(codec, t, keys, newLine);
    if k in keys {
      F.ReplacedChain(ls, ours, l, ours, l);
    } else {
      F.ReplacedMembers(ls, ours, l);
      F.SwappedAbsent(F.Replaced(ls, ours, l), ours, l);
      UnlinesSnoc(F.Replaced(ls, ours, l), l);
    }
  }

  datatype Rotation = Rotation(key: PublicKey, line: string)

  /** A file after a list of rotations, each retiring the keys of those before it. */
  ghost function RotateAll(codec: Codec, t: string, keys: set<PublicKey>, rs: seq<Rotation>): string
    decreases |rs|
  {
    if rs == [] then t
    else RotateAll(codec, ReplacedText(codec, t, keys, rs[0].line), keys + {rs[0].key}, rs[1..])
  }

  ghost predicate GoodRotations(codec: Codec, rs: seq<Rotation>) {
    && (forall r :: r in rs ==>
        NoBreak(TrimEnd(r.line, "\n")) && TrustedKey(codec, TrimEnd(r.line, "\n")) == Some(r.key))
    && (forall i, j :: 0 <= i < j < |rs| ==> rs[i].key != rs[j].key)
  }

  lemma RestUnknown(codec: Codec, t: string, keys: set<PublicKey>, rs: seq<Rotation>)
    requires rs != [] && GoodRotations(codec, rs)
    requires forall r :: r in rs ==> Unknown(codec, t, r.key)
    ensures GoodRotations(codec, rs[1..])
    ensures forall r :: r in rs[1..] ==> Unknown(codec, ReplacedText(codec, t, keys, rs[0].line), r.key)
  {
    assert rs[0] in rs;
    ReplacedKeys(codec, t, keys, rs[0].line, rs[0].key);
    forall r | r in rs[1..]
      ensures r in rs && r.key != rs[0].key
    {
      var i :| 0 <= i < |rs| - 1 && rs[1..][i] == r;
      assert rs[i + 1] == r;
    }
  }

  /** Any number of rotations leaves the file that the last one alone would leave. */
  lemma {:induction false} RotationsCollapse(codec: Codec, t: string, keys: set<PublicKey>, rs: seq<Rotation>)
    requires rs != [] && GoodRotations(codec, rs)
    requires forall r :: r in rs ==> Unknown(codec, t, r.key)
    ensures RotateAll(codec, t, keys, rs) == ReplacedText(codec, t, keys, rs[|rs| - 1].line)
    decreases |rs|
  {
    var r, rest := rs[0], rs[1..];
    var t1, keys1 := ReplacedText(codec, t, keys, r.line), keys + {r.key};
    RotateFirst(codec, t, keys, rs);
    if |rs| > 1 {
      RestUnknown(codec, t, keys, rs);
      RotationsCollapse(codec, t1, keys1, rest);
      assert r in rs;
      RotationChain(codec, t, keys, r.line, r.key, rest[|rest| - 1].line);
    }
  }

  lemma RotateFirst(codec: Codec, t: string, keys: set<PublicKey>, rs: seq<Rotation>)
    requires rs != []
    ensures RotateAll(codec, t, keys, rs) == RotateAll(codec, ReplacedText(codec, t, keys, rs[0].line),
                                                       keys + {rs[0].key}, rs[1..])
    ensures |rs| == 1 ==> RotateAll(codec, t, keys, rs) == ReplacedText(codec, t, keys, rs[0].line)
  {
    if |rs| == 1 {
      assert rs[1..] == [];
    }
  }
}
