/** Principal lists: what trust lines and certificates list, and the text of a trust line. */
module Principals {
  import opened Wrappers
  import opened Text

  /** The principal every trust line lists first and the manager's own certificate carries. */
  const MANAGER := "manager"

  // ---- Principal lists ----

  /** Appends to acc each non-empty element of ps that is not yet there, in order. */
  function AddAll(acc: seq<string>, ps: seq<string>): seq<string>
    decreases |ps|
  {
    if ps == [] then acc
    else AddAll(if ps[0] == "" || ps[0] in acc then acc else acc + [ps[0]], ps[1..])
  }

  ghost predicate NoDup(xs: seq<string>) {
    forall i, j :: 0 <= i < j < |xs| ==> xs[i] != xs[j]
  }

  lemma {:induction false} AddAllKeeps(acc: seq<string>, ps: seq<string>)
    ensures acc <= AddAll(acc, ps)
    ensures NoDup(acc) ==> NoDup(AddAll(acc, ps))
    ensures forall x :: x in AddAll(acc, ps) <==> x in acc || (x in ps && x != "")
    decreases |ps|
  {
    if ps != [] {
      var next := if ps[0] == "" || ps[0] in acc then acc else acc + [ps[0]];
      AddAllKeeps(next, ps[1..]);
      assert forall x :: x in ps <==> x == ps[0] || x in ps[1..];
    }
  }

  lemma {:induction false} AddAllAppend(acc: seq<string>, a: seq<string>, b: seq<string>)
    ensures AddAll(acc, a + b) == AddAll(AddAll(acc, a), b)
    decreases |a|
  {
    if a == [] {
      assert a + b == b;
    } else {
      assert (a + b)[1..] == a[1..] + b;
      AddAllAppend(if a[0] == "" || a[0] in acc then acc else acc + [a[0]], a[1..], b);
    }
  }

  lemma AddAllSnoc(acc: seq<string>, a: seq<string>, x: string)
    ensures AddAll(acc, a + [x]) ==
            var r := AddAll(acc, a); if x == "" || x in r then r else r + [x]
  {
    AddAllAppend(acc, a, [x]);
    var r := AddAll(acc, a);
    assert [x][1..] == [];
    assert AddAll(if x == "" || x in r then r else r + [x], []) == if x == "" || x in r then r else r + [x];
  }

  function TrimAll(ps: seq<string>): (r: seq<string>)
    ensures |r| == |ps| && forall i :: 0 <= i < |ps| ==> r[i] == TrimSpace(ps[i])
  {
    seq(|ps|, i requires 0 <= i < |ps| => TrimSpace(ps[i]))
  }

  /** The principals of a trust line for the groups ps: the manager first, then ps without repeats. */
  function WithManager(ps: seq<string>): seq<string> {
    AddAll([MANAGER], ps)
  }

  /** What a trust line lists: the manager first, nothing twice, nothing else but ps. */
  lemma WithManagerLists(ps: seq<string>)
    ensures var r := WithManager(ps);
            [MANAGER] <= r && NoDup(r) &&
            forall x :: x in r <==> x == MANAGER || (x in ps && x != "")
  {
    AddAllKeeps([MANAGER], ps);
  }

  lemma WithManagerSnoc(names: seq<string>, i: nat)
    requires i < |names|
    ensures WithManager(names[..i + 1]) ==
            var r := WithManager(names[..i]); if names[i] == "" || names[i] in r then r else r + [names[i]]
  {
    AddAllSnoc([MANAGER], names[..i], names[i]);
    assert names[..i + 1] == names[..i] + [names[i]];
  }

  /** peerfiles.dedupPrincipals. */
  method DedupPrincipals(principals: seq<string>) returns (all: seq<string>)
    ensures all == WithManager(TrimAll(principals))
  {
    ghost var names := TrimAll(principals);
    all := [MANAGER];
    var seen := {MANAGER};
    for i := 0 to |principals|
      invariant all == WithManager(names[..i])
      invariant forall x :: x in seen <==> x in all
    {
      var p := TrimSpace(principals[i]);
      WithManagerSnoc(names, i);
      if p == "" {
        continue;
      }
      if p in seen {
        continue;
      }
      seen := seen + {p};
      all := all + [p];
    }
    assert names[..|principals|] == names;
  }

  // ---- Building trust lines ----

  /** A cert-authority line without its newline: ca is the key text, value the principal list. */
  function TrustText(ca: string, value: string): string {
    "cert-authority,principals=\"" + value + "\" " + ca
  }

  /** peerfiles.buildAuthorizedKeysLine, the line a bundle ships; its loop over the names is dedupPrincipals'. */
  method BuildAuthorizedKeysLine(caPub: string, principals: seq<string>) returns (line: string)
    ensures line == TrustText(TrimEnd(caPub, "\n"), JoinCSV(WithManager(TrimAll(principals)))) + "\n"
  {
    var caTrim := TrimEnd(caPub, "\n");
    var all := DedupPrincipals(principals);
    line := "cert-authority,principals=\"" + JoinCSV(all) + "\" " + caTrim + "\n";
  }

  lemma {:induction false} JoinCSVSnoc(xs: seq<string>, x: string)
    ensures JoinCSV(xs + [x]) == if xs == [] then x else JoinCSV(xs) + "," + x
  {
    if |xs| == 1 {
      assert (xs + [x])[1..] == [x];
    } else if |xs| > 1 {
      JoinCSVSnoc(xs[1..], x);
      assert (xs + [x])[1..] == xs[1..] + [x];
    }
  }

  /** ops.userAuthorizedKeysLine, the line a rotation pushes: no trimming of names, a wider trim of the key. */
  method UserAuthorizedKeysLine(caPub: string, principals: seq<string>) returns (line: string)
    ensures line == TrustText(TrimEnd(caPub, "\n\r"), JoinCSV(WithManager(principals))) + "\n"
  {
    var all := [MANAGER];
    var seen := {MANAGER};
    for i := 0 to |principals|
      invariant all == WithManager(principals[..i])
      invariant forall x :: x in seen <==> x in all
    {
      var p := principals[i];
      WithManagerSnoc(principals, i);
      if p in seen {
        continue;
      }
      if p == "" {
        continue;
      }
      seen := seen + {p};
      all := all + [p];
    }
    assert principals[..|principals|] == principals;
    var caTrim := TrimEnd(caPub, "\n\r");
    line := "cert-authority,principals=\"";
    for i := 0 to |all|
      invariant line == "cert-authority,principals=\"" + JoinCSV(all[..i])
    {
      JoinCSVSnoc(all[..i], all[i]);
      assert all[..i + 1] == all[..i] + [all[i]];
      if i > 0 {
        line := line + [','];
      }
      line := line + all[i];
    }
    assert all[..|all|] == all;
    line := line + ['"', ' '];
    line := line + caTrim;
    line := line + ['\n'];
  }

  lemma TrustTextInjective(a: string, b: string, value: string)
    requires TrustText(a, value) == TrustText(b, value)
    ensures a == b
  {
    var head := "cert-authority,principals=\"" + value + "\" ";
    assert TrustText(a, value)[|head|..] == a && TrustText(b, value)[|head|..] == b;
  }

  predicate StrayReturn(caPub: string) {
    var core := TrimEnd(caPub, "\n");
    core != "" && core[|core| - 1] == '\r'
  }

  lemma KeyTrimsAgree(caPub: string)
    ensures TrimEnd(caPub, "\n") == TrimEnd(caPub, "\n\r") <==> !StrayReturn(caPub)
  {
    var core := TrimEnd(caPub, "\n");
    if !StrayReturn(caPub) {
      var tail := TrimEndSplits(caPub, "\n");
      TrimEndUnique(core, tail, "\n\r");
    } else if core == TrimEnd(caPub, "\n\r") {
      var tail := TrimEndSplits(caPub, "\n\r");
    }
  }

  /** The two line builders agree on trimmed names exactly when the key text ends in no stray carriage return. */
  lemma BuildersAgree(caPub: string, ps: seq<string>)
    requires forall p :: p in ps ==> TrimSpace(p) == p
    ensures TrustText(TrimEnd(caPub, "\n"), JoinCSV(WithManager(TrimAll(ps))))
            == TrustText(TrimEnd(caPub, "\n\r"), JoinCSV(WithManager(ps)))
       <==> !StrayReturn(caPub)
  {
    assert TrimAll(ps) == ps;
    KeyTrimsAgree(caPub);
    var a, b, value := TrimEnd(caPub, "\n"), TrimEnd(caPub, "\n\r"), JoinCSV(WithManager(ps));
    if TrustText(a, value) == TrustText(b, value) {
      TrustTextInjective(a, b, value);
    }
  }

  // ---- Certificates ----

  /** The principals of a certificate: the name, then the manager for the manager's own row, then the groups. */
  function CertList(name: string, groups: seq<string>, self: bool): seq<string> {
    AddAll([], [name] + (if self then [MANAGER] else []) + groups)
  }

  lemma CertHead(name: string, self: bool)
    ensures AddAll([], [name] + (if self then [MANAGER] else [])) ==
            (if name == "" then [] else [name]) + (if self && name != MANAGER then [MANAGER] else [])
  {
    AddAllSnoc([], [], name);
    AddAllSnoc([], [name], MANAGER);
    assert [] + [name] == [name] && [name] + [] == [name] && AddAll([], []) == [];
  }

  /** ops.CertPrincipals. */
  method CertPrincipals(name: string, groups: seq<string>, self: bool) returns (out: seq<string>)
    ensures out == CertList(name, groups, self)
  {
    var head := [name] + (if self then [MANAGER] else []);
    out := if name == "" then [] else [name];
    if self && MANAGER !in out {
      out := out + [MANAGER];
    }
    CertHead(name, self);
    assert head + groups[..0] == head;
    for i := 0 to |groups|
      invariant out == AddAll([], head + groups[..i])
      invariant self ==> MANAGER in out
    {
      AddAllSnoc([], head + groups[..i], groups[i]);
      assert head + groups[..i + 1] == head + groups[..i] + [groups[i]];
      if self && groups[i] == MANAGER {
        continue;
      }
      if groups[i] != "" && groups[i] !in out {
        out := out + [groups[i]];
      }
    }
    assert groups[..|groups|] == groups;
  }

  /** What a certificate lists: its name and groups, each once, and the manager exactly when asked or granted. */
  lemma CertListHas(name: string, groups: seq<string>, self: bool)
    ensures NoDup(CertList(name, groups, self))
    ensures forall x :: x in CertList(name, groups, self) <==>
                        x != "" && (x == name || x in groups || (self && x == MANAGER))
    ensures name != "" ==> [name] <= CertList(name, groups, self)
  {
    var ps := [name] + (if self then [MANAGER] else []) + groups;
    AddAllKeeps([], ps);
    assert forall x :: x in ps <==> x == name || x in groups || (self && x == MANAGER);
    if name != "" {
      AddAllKeeps([name], ps[1..]);
      assert [] + [name] == [name];
    }
  }
}
