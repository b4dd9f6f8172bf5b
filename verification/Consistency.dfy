/**
 What is assumed of the ssh library can be met: a parser and a printer of keys that do. And there is a sound fleet
 for the operations to start from.
 */
module Consistency {
  import opened Wrappers
  import opened Text
  import opened Principals
  import opened AuthorizedKeys
  import opened TrustLaws
  import opened PrincipalLaws
  import opened Tables
  import opened Fleet
  import opened Rotation

  /** A key's bytes as one word: decimal numbers, each with a comma, and a full stop. */
  function Encoded(blob: string): string {
    if blob == "" then "." else Decimal(blob[0] as int) + "," + Encoded(blob[1..])
  }

  lemma {:induction false} DecimalDigits(n: nat)
    ensures forall c :: c in Decimal(n) ==> '0' <= c <= '9'
  {
    if n >= 10 {
      DecimalDigits(n / 10);
    }
  }

  lemma {:induction false} EncodedPlain(blob: string)
    ensures Encoded(blob) != "" && NoBreak(Encoded(blob)) && Encoded(blob)[|Encoded(blob)| - 1] == '.'
  {
    if blob != "" {
      EncodedPlain(blob[1..]);
      DecimalDigits(blob[0] as int);
    }
  }

  lemma {:induction false} EncodedInjective(a: string, b: string)
    requires Encoded(a) == Encoded(b)
    ensures a == b
    decreases |a|
  {
    if a == "" || b == "" {
      assert ',' !in ".";
      assert a != "" ==> ',' in Encoded(a);
      assert b != "" ==> ',' in Encoded(b);
    } else {
      var m, n := FirstByte(a), FirstByte(b);
      DecimalDigits(m);
      DecimalDigits(n);
      FirstCommaIs(Decimal(m), Encoded(a[1..]));
      FirstCommaIs(Decimal(n), Encoded(b[1..]));
      assert Encoded(a)[..|Decimal(m)|] == Decimal(m) && Encoded(b)[..|Decimal(n)|] == Decimal(n);
      DecimalInjective(m, n);
      assert Encoded(a)[|Decimal(m)| + 1..] == Encoded(a[1..]) && Encoded(b)[|Decimal(n)| + 1..] == Encoded(b[1..]);
      EncodedInjective(a[1..], b[1..]);
      assert a == [a[0]] + a[1..] && b == [b[0]] + b[1..];
    }
  }

  function FirstByte(a: string): nat
    requires a != ""
  {
    a[0] as int
  }

  /** A line of exactly the written form, for the key and the value. */
  ghost predicate Written(l: string, k: PublicKey, v: string) {
    '"' !in v && l == TrustText(Encoded(k.blob), v)
  }

  ghost function Read(l: string): ParseOutcome {
    if k, v :| Written(l, k, v) then Parsed(k, ["cert-authority", Marked(v)]) else Rejected
  }

  lemma TextUnique(a: string, v: string, b: string, w: string)
    requires '"' !in v && '"' !in w && TrustText(a, v) == TrustText(b, w)
    ensures a == b && v == w
  {
    var head := "cert-authority,principals=\"";
    var s, t := v + "\"" + (" " + a), w + "\"" + (" " + b);
    assert TrustText(a, v) == head + s && TrustText(b, w) == head + t;
    assert s == (head + s)[|head|..] && t == (head + t)[|head|..];
    QuoteAt(v, " " + a);
    QuoteAt(w, " " + b);
    assert v == s[..|v|] && w == t[..|w|];
    assert a == s[|v| + 2..] && b == t[|w| + 2..];
  }

  lemma ReadIs(l: string, k: PublicKey, v: string)
    requires Written(l, k, v)
    ensures Read(l) == Parsed(k, ["cert-authority", Marked(v)])
  {
    forall k', v' | Written(l, k', v')
      ensures k' == k && v' == v
    {
      TextUnique(Encoded(k.blob), v, Encoded(k'.blob), v');
      EncodedInjective(k.blob, k'.blob);
    }
  }

  ghost function TheCodec(): Codec {
    Codec(Read, (k: PublicKey) => Encoded(k.blob) + "\n")
  }

  lemma TheKeyText(k: PublicKey)
    ensures KeyText(TheCodec(), k) == Encoded(k.blob)
  {
    EncodedPlain(k.blob);
    TrimEndUnique(Encoded(k.blob), "\n", "\n");
  }

  lemma KeyReadIs(l: string, k: PublicKey, v: string)
    requires Written(l, k, v)
    ensures KeyRead(TheCodec(), l) == Some(k)
  {
    ReadIs(l, k, v);
    NoEquals("cert-authority");
    assert ["cert-authority", Marked(v)][0] == "cert-authority";
  }

  lemma TextRewrites(k: PublicKey, v: string, w: string)
    requires '"' !in v
    ensures RewriteLineOptions(TrustText(Encoded(k.blob), v), Marked(w)) == Some(TrustText(Encoded(k.blob), w))
  {
    TrustTextSite(Encoded(k.blob), v);
    SiteRewrites(TrustText(Encoded(k.blob), v), "cert-authority,", v, " " + Encoded(k.blob), Marked(w));
    TokenInText(Encoded(k.blob), w);
  }

  lemma WrittenBack(l: string, v: string, r: string, k: PublicKey, w: string) returns (u: string)
    requires '"' !in v && RewriteLineOptions(l, Marked(v)) == Some(r) && Written(r, k, w)
    ensures Written(l, k, u)
  {
    var pre, post;
    pre, u, post := FindSite(l, Marked(v));
    SiteRewrites(l, pre, u, post, Marked(v));
    SiteMoves(pre, u, v, post);
    SiteRewrites(r, pre, v, post, Marked(u));
    TextRewrites(k, w, u);
  }

  ghost predicate IsWritten(l: string) {
    exists k, v :: Written(l, k, v)
  }

  lemma ReadNothing(l: string)
    requires !IsWritten(l)
    ensures KeyRead(TheCodec(), l) == None
  {
  }

  lemma BlindAt(l: string, v: string)
    requires QuoteFree(v) && RewriteLineOptions(l, Marked(v)).Some?
    ensures KeyRead(TheCodec(), RewriteLineOptions(l, Marked(v)).value) == KeyRead(TheCodec(), l)
  {
    var r := RewriteLineOptions(l, Marked(v)).value;
    if IsWritten(l) {
      var k, u :| Written(l, k, u);
      TextRewrites(k, u, v);
      KeyReadIs(l, k, u);
      KeyReadIs(r, k, v);
    } else {
      forall k, w
        ensures !Written(r, k, w)
      {
        if Written(r, k, w) {
          var u := WrittenBack(l, v, r, k, w);
        }
      }
      ReadNothing(l);
      ReadNothing(r);
    }
  }

  /** The assumptions about the ssh library do not contradict each other. */
  lemma FaithfulExists()
    ensures exists codec :: Faithful(codec)
  {
    TheCodecIs();
  }

  lemma TheCodecIs()
    ensures Faithful(TheCodec())
  {
    var codec := TheCodec();
    forall k
      ensures var ct := KeyText(codec, k);
              codec.marshal(k) == ct + "\n" && ct != "" && NoBreak(ct) && !IsSpace(ct[|ct| - 1])
    {
      TheKeyText(k);
      EncodedPlain(k.blob);
    }
    forall k, v | QuoteFree(v)
      ensures codec.parse(TrustText(KeyText(codec, k), v)) == Parsed(k, ["cert-authority", Marked(v)])
    {
      TheKeyText(k);
      ReadIs(TrustText(Encoded(k.blob), v), k, v);
    }
    forall l
      ensures Blind(codec, l)
    {
      forall v | QuoteFree(v) && RewriteLineOptions(l, Marked(v)).Some?
        ensures KeyRead(codec, RewriteLineOptions(l, Marked(v)).value) == KeyRead(codec, l)
      {
        BlindAt(l, v);
      }
    }
  }

  // ---- A fleet to start from ----

  function Row(cert: Option<Cert>): PeerRow {
    PeerRow(cert, 0, "", false, "", "", true, "", true)
  }

  /** The manager with one peer, nothing installed yet. */
  function Young(self: string, name: string, k: PublicKey): World {
    var cert := Cert(k, 0, self, [MANAGER], "");
    World(Tables(map[self := Row(Some(cert)), name := Row(None)], {}, {}, {}, map[], 0),
          map["ca" := Keyed(k, true)], map[], {k}, {cert}, {})
  }

  lemma YoungInv(codec: Codec, self: string, name: string, k: PublicKey)
    requires self != name
    ensures Inv(codec, self, Young(self, name, k))
  {
    var w := Young(self, name, k);
    var cert := Cert(k, 0, self, [MANAGER], "");
    assert cert in w.issued && ManagerOnce([MANAGER]);
    forall x | Held(w.dirs, x)
      ensures x in w.minted
    {
    }
    assert forall p :: RowOwned(w.issued, self, p, w.db);
  }

  /** A rotation, and a revocation of the other peer, can start somewhere. */
  lemma StartExists(self: string, name: string)
    requires self != name
    ensures exists codec, w, k ::
              && Faithful(codec) && Inv(codec, self, w) && Ready(w.dirs)
              && name in w.db.peers && Fresh(codec, w, k)
  {
    var k, k1 := PublicKey(""), PublicKey("x");
    assert k != k1;
    TheCodecIs();
    YoungInv(TheCodec(), self, name, k);
    assert Fresh(TheCodec(), Young(self, name, k), k1);
    assert name in Young(self, name, k).db.peers;
  }
}
