/**
Sandbox and container names (pkg/server/helpers.go): metadata fields joined by
underscores.  The index refuses a second entry of the same name, so the names
have to tell different metadata apart.
*/
module Names {
  import opened Wrappers
  import opened Strings
  import opened Seqs

  const NAME_DELIMITER := '_'

  datatype SandboxMetadata = SandboxMetadata(name: string, namespace_: string, uid: string, attempt: nat)

  datatype ContainerMetadata = ContainerMetadata(name: string, attempt: nat)

  function SandboxFields(s: SandboxMetadata): seq<string> {
    [s.name, s.namespace_, s.uid]
  }

  function MakeSandboxName(s: SandboxMetadata): string {
    Join(SandboxFields(s) + [Decimal(s.attempt)], [NAME_DELIMITER])
  }

  function ContainerFields(c: ContainerMetadata, s: SandboxMetadata): seq<string> {
    [c.name, s.name, s.namespace_, s.uid]
  }

  function MakeContainerName(c: ContainerMetadata, s: SandboxMetadata): string {
    Join(ContainerFields(c, s) + [Decimal(c.attempt)], [NAME_DELIMITER])
  }

  /** The names spelled out. */
  lemma NamesAre(c: ContainerMetadata, s: SandboxMetadata)
    ensures MakeSandboxName(s) == s.name + "_" + s.namespace_ + "_" + s.uid + "_" + Decimal(s.attempt)
    ensures MakeContainerName(c, s) ==
      c.name + "_" + s.name + "_" + s.namespace_ + "_" + s.uid + "_" + Decimal(c.attempt)
  {
    JoinFour(s.name, s.namespace_, s.uid, Decimal(s.attempt));
    JoinFour(s.name, s.namespace_, s.uid, Decimal(c.attempt));
    var all := ContainerFields(c, s) + [Decimal(c.attempt)];
    assert all[1..] == [s.name, s.namespace_, s.uid, Decimal(c.attempt)];
    assert SandboxFields(s) + [Decimal(s.attempt)] == [s.name, s.namespace_, s.uid, Decimal(s.attempt)];
  }

  lemma JoinFour(a: string, b: string, c: string, d: string)
    ensures Join([a, b, c, d], "_") == a + "_" + b + "_" + c + "_" + d
  {
    assert [a, b, c, d][1..] == [b, c, d] && [b, c, d][1..] == [c, d] && [c, d][1..] == [d];
    assert Join([c, d], "_") == c + "_" + d;
    assert Join([b, c, d], "_") == b + "_" + (c + "_" + d);
  }

  // -------------------------------------------------------------- parsing

  function ParseSandboxName(name: string): Option<SandboxMetadata> {
    var p := Split(name, NAME_DELIMITER);
    if |p| != 4 then None else Some(SandboxMetadata(p[0], p[1], p[2], ParseDecimal(p[3])))
  }

  /** Names of underscore-free metadata can be read back. */
  lemma SandboxNameRoundTrip(s: SandboxMetadata)
    requires AllFree(SandboxFields(s), NAME_DELIMITER)
    ensures ParseSandboxName(MakeSandboxName(s)) == Some(s)
  {
    SplitJoin(SandboxFields(s) + [Decimal(s.attempt)], NAME_DELIMITER);
    DecimalRoundTrip(s.attempt);
  }

  /** The container name holds everything but the attempt number of the sandbox. */
  function ParseContainerName(name: string): Option<(ContainerMetadata, SandboxMetadata)> {
    var p := Split(name, NAME_DELIMITER);
    if |p| != 5 then None
    else Some((ContainerMetadata(p[0], ParseDecimal(p[4])), SandboxMetadata(p[1], p[2], p[3], 0)))
  }

  lemma ContainerNameRoundTrip(c: ContainerMetadata, s: SandboxMetadata)
    requires AllFree(ContainerFields(c, s), NAME_DELIMITER)
    ensures ParseContainerName(MakeContainerName(c, s)) == Some((c, s.(attempt := 0)))
  {
    SplitJoin(ContainerFields(c, s) + [Decimal(c.attempt)], NAME_DELIMITER);
    DecimalRoundTrip(c.attempt);
  }

  // ------------------------------------------------------- when it is unique

  function Count(s: string, c: char): nat {
    if s == "" then 0 else (if s[0] == c then 1 else 0) + Count(s[1..], c)
  }

  lemma {:induction false} CountConcat(a: string, b: string, c: char)
    ensures Count(a + b, c) == Count(a, c) + Count(b, c)
    decreases |a|
  {
    if a == "" {
      assert a + b == b;
    } else {
      assert (a + b)[1..] == a[1..] + b;
      CountConcat(a[1..], b, c);
    }
  }

  lemma {:induction false} CountZero(s: string, c: char)
    ensures Count(s, c) == 0 <==> c !in s
  {
    if s != "" {
      CountZero(s[1..], c);
      assert s == [s[0]] + s[1..];
    }
  }

  /** A joined string has a separator between any two parts, and more exactly if some part has one inside. */
  lemma {:induction false} CountJoin(parts: seq<string>, c: char)
    requires parts != []
    ensures Count(Join(parts, [c]), c) >= |parts| - 1
    ensures Count(Join(parts, [c]), c) == |parts| - 1 <==> AllFree(parts, c)
    decreases |parts|
  {
    CountZero(parts[0], c);
    if |parts| > 1 {
      CountJoin(parts[1..], c);
      CountConcat(parts[0] + [c], Join(parts[1..], [c]), c);
      CountConcat(parts[0], [c], c);
      assert [c][1..] == "" && Count([c], c) == 1;
      assert AllFree(parts, c) <==> c !in parts[0] && AllFree(parts[1..], c) by {
        assert forall i :: 1 <= i < |parts| ==> parts[i] == parts[1..][i - 1];
      }
    }
  }

  /** Equal joins of equally many parts are equal part by part, as soon as one side is free of the separator. */
  lemma JoinInjective(ps: seq<string>, qs: seq<string>, c: char)
    requires ps != [] && |ps| == |qs| && AllFree(ps, c) && Join(ps, [c]) == Join(qs, [c])
    ensures ps == qs
  {
    CountJoin(ps, c);
    CountJoin(qs, c);
    SplitJoin(ps, c);
    SplitJoin(qs, c);
  }

  /** With a separator inside a field, the same name can be spelled by another list of fields. */
  lemma Respell(ps: seq<string>, d: string, i: nat, c: char) returns (qs: seq<string>)
    requires i < |ps| && |ps| >= 2 && c in ps[i]
    ensures |qs| == |ps| && qs != ps && Join(qs + [d], [c]) == Join(ps + [d], [c])
  {
    var k := IndexOf(ps[i], c, 0);
    var x, y := ps[i][..k], ps[i][k + 1..];
    assert ps[i] == x + [c] + y;
    if i + 1 < |ps| {
      var a, b := ps[..i], ps[i + 2..] + [d];
      qs := ps[i := x][i + 1 := y + [c] + ps[i + 1]];
      JoinMerge(a, x, y, [ps[i + 1]] + b, c);
      JoinMerge(a + [x], y, ps[i + 1], b, c);
      assert ps + [d] == a + [x + [c] + y] + ([ps[i + 1]] + b);
      assert qs + [d] == (a + [x]) + [y + [c] + ps[i + 1]] + b;
      assert a + [x, y] + ([ps[i + 1]] + b) == (a + [x]) + [y, ps[i + 1]] + b;
      assert |qs[i]| < |ps[i]|;
    } else {
      var a, b := ps[..i - 1], [d];
      qs := ps[i - 1 := ps[i - 1] + [c] + x][i := y];
      JoinMerge(a + [ps[i - 1]], x, y, b, c);
      JoinMerge(a, ps[i - 1], x, [y] + b, c);
      assert ps + [d] == (a + [ps[i - 1]]) + [x + [c] + y] + b;
      assert qs + [d] == a + [ps[i - 1] + [c] + x] + ([y] + b);
      assert (a + [ps[i - 1]]) + [x, y] + b == a + [ps[i - 1], x] + ([y] + b);
      assert |qs[i]| < |ps[i]|;
    }
  }

  /** No other sandbox metadata has the same name. */
  ghost predicate SandboxNameUnique(s: SandboxMetadata) {
    forall t :: MakeSandboxName(t) == MakeSandboxName(s) ==> t == s
  }

  /** A sandbox name is unique exactly if none of its three text fields contains an underscore. */
  lemma SandboxNameUniqueIff(s: SandboxMetadata)
    ensures SandboxNameUnique(s) <==> '_' !in s.name && '_' !in s.namespace_ && '_' !in s.uid
  {
    var d := Decimal(s.attempt);
    assert AllFree(SandboxFields(s), NAME_DELIMITER) <==> '_' !in s.name && '_' !in s.namespace_ && '_' !in s.uid by {
      assert SandboxFields(s)[0] == s.name && SandboxFields(s)[1] == s.namespace_ && SandboxFields(s)[2] == s.uid;
    }
    if AllFree(SandboxFields(s), NAME_DELIMITER) {
      forall t | MakeSandboxName(t) == MakeSandboxName(s)
        ensures t == s
      {
        var ps, qs := SandboxFields(s) + [d], SandboxFields(t) + [Decimal(t.attempt)];
        JoinInjective(ps, qs, NAME_DELIMITER);
        assert ps[0] == qs[0] && ps[1] == qs[1] && ps[2] == qs[2] && ps[3] == qs[3];
        DecimalRoundTrip(s.attempt);
        DecimalRoundTrip(t.attempt);
      }
    } else {
      var i :| 0 <= i < 3 && NAME_DELIMITER in SandboxFields(s)[i];
      var qs := Respell(SandboxFields(s), d, i, NAME_DELIMITER);
      var t := SandboxMetadata(qs[0], qs[1], qs[2], s.attempt);
      assert SandboxFields(t) == qs;
      assert MakeSandboxName(t) == MakeSandboxName(s);
    }
  }

  /** No other container, in no other sandbox but for the attempt number of the sandbox, has the same name. */
  ghost predicate ContainerNameUnique(c: ContainerMetadata, s: SandboxMetadata) {
    forall d, t :: MakeContainerName(d, t) == MakeContainerName(c, s) ==> d == c && t.(attempt := s.attempt) == s
  }

  /** A container name is unique in the same way exactly if none of its four text fields contains an underscore. */
  lemma ContainerNameUniqueIff(c: ContainerMetadata, s: SandboxMetadata)
    ensures ContainerNameUnique(c, s) <==> '_' !in c.name && '_' !in s.name && '_' !in s.namespace_ && '_' !in s.uid
  {
    var d := Decimal(c.attempt);
    var fs := ContainerFields(c, s);
    assert AllFree(fs, NAME_DELIMITER) <==>
      '_' !in c.name && '_' !in s.name && '_' !in s.namespace_ && '_' !in s.uid by {
      assert fs[0] == c.name && fs[1] == s.name && fs[2] == s.namespace_ && fs[3] == s.uid;
    }
    if AllFree(ContainerFields(c, s), NAME_DELIMITER) {
      forall c2, t | MakeContainerName(c2, t) == MakeContainerName(c, s)
        ensures c2 == c && t.(attempt := s.attempt) == s
      {
        var ps, qs := ContainerFields(c, s) + [d], ContainerFields(c2, t) + [Decimal(c2.attempt)];
        JoinInjective(ps, qs, NAME_DELIMITER);
        assert ps[0] == qs[0] && ps[1] == qs[1] && ps[2] == qs[2] && ps[3] == qs[3] && ps[4] == qs[4];
        DecimalRoundTrip(c.attempt);
        DecimalRoundTrip(c2.attempt);
      }
    } else {
      var i :| 0 <= i < 4 && NAME_DELIMITER in ContainerFields(c, s)[i];
      var qs := Respell(ContainerFields(c, s), d, i, NAME_DELIMITER);
      var c2, t := ContainerMetadata(qs[0], c.attempt), SandboxMetadata(qs[1], qs[2], qs[3], s.attempt);
      assert ContainerFields(c2, t) == qs;
      assert MakeContainerName(c2, t) == MakeContainerName(c, s);
    }
  }
}
