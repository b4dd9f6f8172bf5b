/**
 The authorized_keys side of certhold: which lines are this instance's cert-authority lines, the
 scanners that rewrite them in place, and what an sshd reading the file accepts.
 */
module AuthorizedKeys {
  import opened Wrappers
  import opened Text
  import opened Principals
  import F = Filters

  const PRINCIPALS := "principals=\""

  datatype PublicKey = PublicKey(blob: string)

  datatype ParseOutcome = Rejected | Parsed(key: PublicKey, options: seq<string>)

  /** golang.org/x/crypto/ssh as certhold uses it: ParseAuthorizedKey and MarshalAuthorizedKey. */
  datatype Codec = Codec(parse: string -> ParseOutcome, marshal: PublicKey -> string)

  datatype Cert = Cert(issuer: PublicKey, serial: nat, keyId: string, principals: seq<string>, subject: string)

  // ---- Which lines are ours ----

  /** The option's name: what precedes its first '='. */
  function OptionName(o: string): string {
    if o == "" || o[0] == '=' then "" else [o[0]] + OptionName(o[1..])
  }

  ghost predicate HasCertAuthority(options: seq<string>) {
    exists o :: o in options && OptionName(o) == "cert-authority"
  }

  /** The certificate authority a trimmed line trusts. */
  ghost function KeyRead(codec: Codec, line: string): Option<PublicKey> {
    match codec.parse(line)
    case Rejected => None
    case Parsed(key, options) => if HasCertAuthority(options) then Some(key) else None
  }

  function Core(line: string): string {
    TrimSpace(TrimEnd(line, "\r"))
  }

  predicate Ignored(core: string) {
    core == "" || core[0] == '#'
  }

  /** The certificate authority a file line trusts; blank lines and comments trust none. */
  ghost function TrustedKey(codec: Codec, line: string): Option<PublicKey> {
    if Ignored(Core(line)) then None else KeyRead(codec, Core(line))
  }

  ghost predicate Trusts(codec: Codec, line: string, keys: set<PublicKey>) {
    TrustedKey(codec, line).Some? && TrustedKey(codec, line).value in keys
  }

  ghost function Trusting(codec: Codec, keys: set<PublicKey>): string -> bool {
    l => Trusts(codec, l, keys)
  }

  ghost function SetOf(keys: seq<PublicKey>): set<PublicKey> {
    set k | k in keys
  }

  lemma {:induction false} OptionNamed(o: string, name: string)
    requires '=' !in name
    ensures OptionName(o) == name <==> o == name || name + "=" <= o
  {
    if o != "" && o[0] != '=' && name != "" {
      OptionNamed(o[1..], name[1..]);
      assert o == [o[0]] + o[1..] && name == [name[0]] + name[1..];
      assert name + "=" == [name[0]] + (name[1..] + "=");
    }
  }

  /** The option that makes a key a certificate authority, with a value or without. */
  ghost predicate Authority(o: string) {
    o == "cert-authority" || "cert-authority=" <= o
  }

  lemma AuthorityRead(codec: Codec, line: string, k: PublicKey)
    ensures KeyRead(codec, line) == Some(k) <==>
            codec.parse(line).Parsed? && codec.parse(line).key == k
            && exists o :: o in codec.parse(line).options && Authority(o)
  {
    if codec.parse(line).Parsed? {
      var options := codec.parse(line).options;
      forall o | o in options
        ensures OptionName(o) == "cert-authority" <==> Authority(o)
      {
        OptionNamed(o, "cert-authority");
        assert "cert-authority" + "=" == "cert-authority=";
      }
      if o :| o in options && Authority(o) {
        assert OptionName(o) == "cert-authority";
      }
    }
  }

  /** Whom a file line trusts, without the scanners' helpers: the trimmed line, if it is no comment, as it is parsed. */
  lemma TrustedKeySays(codec: Codec, line: string, k: PublicKey)
    ensures TrustedKey(codec, line) == Some(k) <==>
            var s := TrimSpace(line);
            && s != "" && s[0] != '#' && codec.parse(s).Parsed? && codec.parse(s).key == k
            && exists o :: o in codec.parse(s).options && Authority(o)
  {
    TrimmedTwice(line, "\r");
    AuthorityRead(codec, Core(line), k);
  }

  /** lineMatchesCA: does the trimmed line carry the cert-authority option and this key? */
  method LineMatchesCA(codec: Codec, line: string, ca: PublicKey) returns (matched: bool)
    ensures matched <==> KeyRead(codec, line) == Some(ca)
    ensures matched <==> codec.parse(line).Parsed? && codec.parse(line).key == ca
                         && exists o :: o in codec.parse(line).options && Authority(o)
  {
    AuthorityRead(codec, line, ca);
    match codec.parse(line)
    case Rejected => return false;
    case Parsed(pk, options) =>
      var hasCA := false;
      for i := 0 to |options|
        invariant !hasCA
        invariant forall j :: 0 <= j < i ==> OptionName(options[j]) != "cert-authority"
      {
        if OptionName(options[i]) == "cert-authority" {
          hasCA := true;
          break;
        }
      }
      if !hasCA {
        return false;
      }
      return pk == ca;
  }

  /** The verdict the scanners reach on one line against a list of keys. */
  method LineMatchesAny(codec: Codec, line: string, keys: seq<PublicKey>) returns (matched: bool)
    ensures matched == Trusts(codec, line, SetOf(keys))
  {
    var trim := Core(line);
    if Ignored(trim) {
      return false;
    }
    for i := 0 to |keys|
      invariant forall j :: 0 <= j < i ==> KeyRead(codec, trim) != Some(keys[j])
    {
      var m := LineMatchesCA(codec, trim, keys[i]);
      if m {
        assert keys[i] in SetOf(keys);
        return true;
      }
    }
    return false;
  }

  // ---- Stripping ----

  ghost function Stripped(codec: Codec, t: string, keys: set<PublicKey>): string {
    Unlines(F.Without(Lines(t), Trusting(codec, keys)))
  }

  lemma StripStep(all: seq<string>, n: nat, ours: string -> bool)
    requires n < |all|
    ensures Unlines(F.Without(all[..n + 1], ours)) ==
            Unlines(F.Without(all[..n], ours)) + (if ours(all[n]) then "" else all[n] + "\n")
  {
    assert all[..n + 1] == all[..n] + [all[n]];
    F.Snoc(all[..n], all[n], ours);
    UnlinesSnoc(F.Without(all[..n], ours), all[n]);
    if ours(all[n]) {
      assert F.Without(all[..n], ours) + [] == F.Without(all[..n], ours);
    }
  }

  /** The scanner has just been asked for a line; done lines precede the one it holds, or all of them. */
  ghost predicate Holds(scanner: LineScanner, done: nat, more: bool)
    reads scanner
  {
    && scanner.Valid()
    && (more ==> scanner.n == done + 1 && scanner.cur == scanner.all[done])
    && (!more ==> done == scanner.n == |scanner.all|)
  }

  /** peerfiles.StripCALine. */
  method StripCALine(codec: Codec, existing: string, caPubKeys: seq<PublicKey>) returns (out: string)
    ensures out == Stripped(codec, existing, SetOf(caPubKeys))
  {
    ghost var ours := Trusting(codec, SetOf(caPubKeys));
    ghost var n := 0;
    out := "";
    var scanner := new LineScanner(existing);
    ghost var all := scanner.all;
    var more := scanner.Next();
    while more
      invariant fresh(scanner) && scanner.all == all && Holds(scanner, n, more)
      invariant n <= |all| && out == Unlines(F.Without(all[..n], ours))
      decreases |all| - n
    {
      var mine := LineMatchesAny(codec, scanner.cur, caPubKeys);
      StripStep(all, n, ours);
      if !mine {
        out := out + (scanner.cur + "\n");
      }
      n := n + 1;
      more := scanner.Next();
    }
    assert all[..|all|] == all;
  }

  // ---- Replacing ----

  /**
   The new line stands where the first line trusting one of keys stood, the other such lines are gone; without any it
   comes last.
   */
  ghost function ReplacedText(codec: Codec, t: string, keys: set<PublicKey>, newLine: string): string {
    Unlines(F.Replaced(Lines(t), Trusting(codec, keys), TrimEnd(newLine, "\n")))
  }

  lemma ReplaceStep(all: seq<string>, n: nat, ours: string -> bool, fresh': string)
    requires n < |all|
    ensures var i := F.First(all[..n], ours);
            Unlines(F.Swapped(all[..n + 1], ours, fresh')) ==
            Unlines(F.Swapped(all[..n], ours, fresh')) +
            (if !ours(all[n]) then all[n] + "\n" else if i == n then fresh' + "\n" else "")
    ensures F.First(all[..n + 1], ours) < n + 1 <==> F.First(all[..n], ours) < n || ours(all[n])
  {
    assert all[..n + 1] == all[..n] + [all[n]];
    F.SwappedSnoc(all[..n], all[n], ours, fresh');
    var now := F.Swapped(all[..n], ours, fresh');
    UnlinesSnoc(now, all[n]);
    UnlinesSnoc(now, fresh');
    assert now + [] == now;
  }

  lemma ReplaceEnd(all: seq<string>, ours: string -> bool, fresh': string)
    requires F.First(all, ours) == |all|
    ensures Unlines(F.Replaced(all, ours, fresh')) == Unlines(F.Swapped(all, ours, fresh')) + (fresh' + "\n")
  {
    UnlinesAppend(all, [fresh']);
    assert [fresh'][1..] == [];
    assert fresh' + "\n" + "" == fresh' + "\n";
  }

  /** peerfiles.ReplaceCALines. */
  method ReplaceCALines(codec: Codec, existing: string, oldCAPubKeys: seq<PublicKey>, newLine: string)
    returns (out: string)
    ensures out == ReplacedText(codec, existing, SetOf(oldCAPubKeys), newLine)
  {
    ghost var ours := Trusting(codec, SetOf(oldCAPubKeys));
    ghost var n := 0;
    var trimmedNew := TrimEnd(newLine, "\n");
    out := "";
    var scanner := new LineScanner(existing);
    ghost var all := scanner.all;
    var replaced := false;
    var more := scanner.Next();
    while more
      invariant fresh(scanner) && scanner.all == all && Holds(scanner, n, more)
      invariant n <= |all| && out == Unlines(F.Swapped(all[..n], ours, trimmedNew))
      invariant replaced <==> F.First(all[..n], ours) < n
      decreases |all| - n
    {
      var matched := LineMatchesAny(codec, scanner.cur, oldCAPubKeys);
      ReplaceStep(all, n, ours, trimmedNew);
      if !matched {
        out := out + (scanner.cur + "\n");
      } else if !replaced {
        out := out + (trimmedNew + "\n");
        replaced := true;
      }
      n := n + 1;
      more := scanner.Next();
    }
    assert all[..|all|] == all;
    if !replaced {
      ReplaceEnd(all, ours, trimmedNew);
      out := out + (trimmedNew + "\n");
    }
  }

  // ---- Rewriting principals ----

  datatype RewriteError = NoMatchingLine | MalformedLine

  function Marked(value: string): string {
    PRINCIPALS + value + "\""
  }

  /** rewriteLineOptions: the first principals="..." token of the line becomes token. */
  function RewriteLineOptions(line: string, token: string): Option<string> {
    match Index(line, PRINCIPALS)
    case None => None
    case Some(idx) =>
      var rest := line[idx + |PRINCIPALS|..];
      match Index(rest, "\"")
      case None => None
      case Some(end) => Some(line[..idx] + token + rest[end + 1..])
  }

  /** A line that trusts k gets the new token, without trailing carriage returns; any other stays. */
  ghost function RewriteLine(codec: Codec, k: PublicKey, token: string, line: string): Option<string> {
    if Trusts(codec, line, {k}) then RewriteLineOptions(TrimEnd(line, "\r"), token) else Some(line)
  }

  ghost function Rewriter(codec: Codec, k: PublicKey, token: string): string -> Option<string> {
    l => RewriteLine(codec, k, token, l)
  }

  /** f applied to every line, if it is defined on all of them. */
  ghost function MapAll(ls: seq<string>, f: string -> Option<string>): Option<seq<string>> {
    if ls == [] then Some([])
    else if f(ls[0]).None? || MapAll(ls[1..], f).None? then None
    else Some([f(ls[0]).value] + MapAll(ls[1..], f).value)
  }

  lemma {:induction false} MapAllAppend(a: seq<string>, b: seq<string>, f: string -> Option<string>)
    ensures MapAll(a + b, f).Some? <==> MapAll(a, f).Some? && MapAll(b, f).Some?
    ensures MapAll(a + b, f).Some? ==> MapAll(a + b, f).value == MapAll(a, f).value + MapAll(b, f).value
  {
    if a == [] {
      assert a + b == b;
    } else {
      assert (a + b)[1..] == a[1..] + b;
      MapAllAppend(a[1..], b, f);
      if MapAll(a + b, f).Some? {
        F.Assoc([f(a[0]).value], MapAll(a[1..], f).value, MapAll(b, f).value);
      }
    }
  }

  lemma MapAllSnoc(now: seq<string>, x: string, f: string -> Option<string>)
    requires MapAll(now, f).Some?
    ensures MapAll(now + [x], f) == if f(x).Some? then Some(MapAll(now, f).value + [f(x).value]) else None
  {
    assert [x][1..] == [];
    assert f(x).Some? ==> [f(x).value] + [] == [f(x).value];
    assert MapAll([x], f) == if f(x).Some? then Some([f(x).value]) else None;
    MapAllAppend(now, [x], f);
  }

  lemma MapAllStep(all: seq<string>, n: nat, f: string -> Option<string>)
    requires n < |all| && MapAll(all[..n], f).Some?
    ensures f(all[n]).Some? ==> MapAll(all[..n + 1], f) == Some(MapAll(all[..n], f).value + [f(all[n]).value])
    ensures f(all[n]).None? ==> MapAll(all, f) == None
  {
    MapAllSnoc(all[..n], all[n], f);
    assert all[..n + 1] == all[..n] + [all[n]];
    MapAllAppend(all[..n + 1], all[n + 1..], f);
    assert all[..n + 1] + all[n + 1..] == all;
  }

  ghost predicate SomeTrusts(codec: Codec, ls: seq<string>, k: PublicKey) {
    exists i :: 0 <= i < |ls| && Trusts(codec, ls[i], {k})
  }

  ghost function RewrittenText(codec: Codec, t: string, k: PublicKey,
                               principals: seq<string>): Result<string, RewriteError> {
    match MapAll(Lines(t), Rewriter(codec, k, Marked(JoinCSV(WithManager(TrimAll(principals))))))
    case None => Err(MalformedLine)
    case Some(ls) => if SomeTrusts(codec, Lines(t), k) then Ok(Unlines(ls)) else Err(NoMatchingLine)
  }

  lemma SomeTrustsStep(codec: Codec, all: seq<string>, n: nat, k: PublicKey)
    requires n < |all|
    ensures SomeTrusts(codec, all[..n + 1], k) <==> SomeTrusts(codec, all[..n], k) || Trusts(codec, all[n], {k})
  {
    var next := all[..n + 1];
    assert next == all[..n] + [all[n]];
    assert Trusts(codec, all[n], {k}) ==> Trusts(codec, next[n], {k});
    if i :| 0 <= i < n && Trusts(codec, all[..n][i], {k}) {
      assert Trusts(codec, next[i], {k});
    }
  }

  /** peerfiles.RewritePrincipals. */
  method RewritePrincipals(codec: Codec, existing: string, caPubKey: PublicKey, principals: seq<string>)
    returns (r: Result<string, RewriteError>)
    ensures r == RewrittenText(codec, existing, caPubKey, principals)
  {
    var allowed := DedupPrincipals(principals);
    var newPrincipals := PRINCIPALS + JoinCSV(allowed) + "\"";
    ghost var f := Rewriter(codec, caPubKey, newPrincipals);
    ghost var n := 0;
    assert SetOf([caPubKey]) == {caPubKey};
    var out := "";
    var scanner := new LineScanner(existing);
    ghost var all := scanner.all;
    var found := false;
    var more := scanner.Next();
    while more
      invariant fresh(scanner) && scanner.all == all && Holds(scanner, n, more)
      invariant n <= |all| && MapAll(all[..n], f).Some? && out == Unlines(MapAll(all[..n], f).value)
      invariant found <==> SomeTrusts(codec, all[..n], caPubKey)
      decreases |all| - n
    {
      MapAllStep(all, n, f);
      SomeTrustsStep(codec, all, n, caPubKey);
      var line := scanner.cur;
      var matched := LineMatchesAny(codec, line, [caPubKey]);
      if !matched {
        UnlinesSnoc(MapAll(all[..n], f).value, line);
        out := out + line + "\n";
      } else {
        var rewritten := RewriteLineOptions(TrimEnd(line, "\r"), newPrincipals);
        if rewritten.None? {
          return Err(MalformedLine);
        }
        UnlinesSnoc(MapAll(all[..n], f).value, rewritten.value);
        out := out + rewritten.value + "\n";
        found := true;
      }
      n := n + 1;
      more := scanner.Next();
    }
    assert all[..|all|] == all;
    if !found {
      return Err(NoMatchingLine);
    }
    return Ok(out);
  }
}
