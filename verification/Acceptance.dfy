/**
 What an sshd accepts, as sshd(8) describes it under AUTHORIZED_KEYS FILE FORMAT: a certificate is
 admitted by a cert-authority line for its issuer whose principals option names one of its principals.
 */
module Acceptance {
  import opened Wrappers
  import opened Text
  import opened Principals
  import opened AuthorizedKeys
  import opened TrustLaws
  import F = Filters

  function Unquote(s: string): string {
    if |s| >= 2 && s[0] == '"' && s[|s| - 1] == '"' then s[1..|s| - 1] else s
  }

  /** The names a principals option lists. */
  function OptionPrincipals(o: string): seq<string> {
    var n := |OptionName(o)|;
    if n < |o| then SplitCSV(Unquote(o[n + 1..])) else []
  }

  ghost predicate Lists(codec: Codec, core: string, p: string) {
    codec.parse(core).Parsed? &&
    exists o :: o in codec.parse(core).options && OptionName(o) == "principals" && p in OptionPrincipals(o)
  }

  /** This line admits the certificate. */
  ghost predicate Admits(codec: Codec, line: string, cert: Cert) {
    && TrustedKey(codec, line) == Some(cert.issuer)
    && exists p :: p in cert.principals && Lists(codec, Core(line), p)
  }

  /** Some line of the file admits the certificate. */
  ghost predicate Accepts(codec: Codec, t: string, cert: Cert) {
    exists l :: l in Lines(t) && Admits(codec, l, cert)
  }

  /** A file that trusts none of a certificate's issuer's lines does not accept it. */
  lemma NoTrustNoAccess(codec: Codec, t: string, cert: Cert)
    requires cert.issuer !in TrustedKeys(codec, t)
    ensures !Accepts(codec, t, cert)
  {
  }

  lemma {:induction false} OptionNameIs(name: string, rest: string)
    requires '=' !in name
    ensures OptionName(name + "=" + rest) == name
  {
    if name != "" {
      assert (name + "=" + rest)[1..] == name[1..] + "=" + rest;
      OptionNameIs(name[1..], rest);
    }
  }

  lemma MarkedOption(v: string)
    ensures OptionName(Marked(v)) == "principals" && OptionPrincipals(Marked(v)) == SplitCSV(v)
  {
    var q := "\"" + v + "\"";
    assert Marked(v) == "principals" + "=" + q;
    OptionNameIs("principals", q);
    assert Marked(v)[11..] == q;
    assert q[1..|q| - 1] == v;
  }

  lemma AuthorityOption()
    ensures OptionName("cert-authority") != "principals"
  {
    NoEquals("cert-authority");
    assert "cert-authority"[0] != "principals"[0];
  }

  lemma TwoOptions(codec: Codec, core: string, a: string, b: string, p: string)
    requires codec.parse(core).Parsed? && codec.parse(core).options == [a, b]
    requires OptionName(a) != "principals" && OptionName(b) == "principals"
    ensures Lists(codec, core, p) <==> p in OptionPrincipals(b)
  {
    assert [a, b][1] == b;
  }

  /** A written trust line lists the manager and the given names, and nothing else. */
  lemma TrustLineLists(codec: Codec, k: PublicKey, ps: seq<string>, p: string)
    requires Faithful(codec) && PlainNames(ps)
    ensures Lists(codec, TrustLine(codec, k, ps), p) <==> p == MANAGER || p in ps
  {
    var all := WithManager(ps);
    WithManagerPlain(ps);
    WithManagerLists(ps);
    SplitJoin(all);
    TextLists(codec, k, JoinCSV(all), p);
    assert forall x :: x in ps ==> x != "";
  }

  lemma TextLists(codec: Codec, k: PublicKey, v: string, p: string)
    requires ReadsTrustLines(codec) && QuoteFree(v)
    ensures Lists(codec, TrustText(KeyText(codec, k), v), p) <==> p in SplitCSV(v)
  {
    ReadBack(codec, k, v);
    MarkedOption(v);
    AuthorityOption();
    TwoOptions(codec, TrustText(KeyText(codec, k), v), "cert-authority", Marked(v), p);
  }

  /** A written trust line admits exactly its key's certificates that carry the manager or one of the names. */
  lemma TrustLineAdmits(codec: Codec, k: PublicKey, ps: seq<string>, cert: Cert)
    requires Faithful(codec) && PlainNames(ps)
    ensures Admits(codec, TrustLine(codec, k, ps), cert) <==>
            cert.issuer == k && exists p :: p in cert.principals && (p == MANAGER || p in ps)
  {
    var l := TrustLine(codec, k, ps);
    TrustLineTrusts(codec, k, ps);
    forall p
      ensures Lists(codec, l, p) <==> p == MANAGER || p in ps
    {
      TrustLineLists(codec, k, ps, p);
    }
  }

  /** A file whose one line for k is the trust line for ps accepts k's certificates as that line does. */
  lemma AcceptsByOnlyLine(codec: Codec, t: string, k: PublicKey, ps: seq<string>, cert: Cert)
    requires Faithful(codec) && PlainNames(ps) && cert.issuer == k
    requires F.Only(Lines(t), Trusting(codec, {k})) == [TrustLine(codec, k, ps)]
    ensures Accepts(codec, t, cert) <==> exists p :: p in cert.principals && (p == MANAGER || p in ps)
  {
    var l := TrustLine(codec, k, ps);
    F.Members(Lines(t), Trusting(codec, {k}));
    TrustLineAdmits(codec, k, ps, cert);
    assert l in [l];
    assert l in Lines(t);
    if Accepts(codec, t, cert) {
      var l' :| l' in Lines(t) && Admits(codec, l', cert);
      assert Trusting(codec, {k})(l');
      assert l' in F.Only(Lines(t), Trusting(codec, {k}));
    }
  }
}
