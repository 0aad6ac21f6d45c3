/** Names derived from object names, and when two of them collide. */
module Names {

  /** The key of a module in blackbox.yml. */
  function ModuleName(ns: string, name: string): string {
    ns + "-" + name
  }

  /** The name shared by every object an exporter owns. */
  function ResourceName(exporterName: string): string {
    exporterName + "-blackbox-exporter"
  }

  lemma AppendLongerPrefix(n1: string, m1: string, n2: string, m2: string)
    requires ModuleName(n1, m1) == ModuleName(n2, m2)
    requires |n1| < |n2|
    ensures n2 == n1 + "-" + n2[|n1| + 1..]
    ensures m1 == n2[|n1| + 1..] + "-" + m2
    ensures '-' in n2
  {
    var whole := ModuleName(n1, m1);
    assert whole[..|n1|] == n1 && whole[|n1|] == '-' && whole[|n1| + 1..] == m1;
    assert whole[..|n2|] == n2;
    assert n2[..|n1|] == n1 && n2[|n1|] == '-';
    assert whole[|n1| + 1..] == (n2 + "-" + m2)[|n1| + 1..];
    assert (n2 + "-" + m2)[|n1| + 1..] == n2[|n1| + 1..] + "-" + m2;
  }

  /** Two modules share a rendered name exactly when a dash-led part moves from one namespace into the other name. */
  lemma ModuleNameCollision(n1: string, m1: string, n2: string, m2: string)
    requires |n1| < |n2|
    ensures ModuleName(n1, m1) == ModuleName(n2, m2)
            <==> exists x: string :: n2 == n1 + "-" + x && m1 == x + "-" + m2
  {
    if ModuleName(n1, m1) == ModuleName(n2, m2) {
      AppendLongerPrefix(n1, m1, n2, m2);
      var x := n2[|n1| + 1..];
      assert n2 == n1 + "-" + x && m1 == x + "-" + m2;
    }
    forall x: string | n2 == n1 + "-" + x && m1 == x + "-" + m2
      ensures ModuleName(n1, m1) == ModuleName(n2, m2)
    {
      assert n1 + "-" + (x + "-" + m2) == (n1 + "-" + x) + "-" + m2;
    }
  }

  /** Namespaces of equal length, so in particular one namespace, never collide. */
  lemma ModuleNameInjectiveAtLength(n1: string, m1: string, n2: string, m2: string)
    requires ModuleName(n1, m1) == ModuleName(n2, m2)
    requires |n1| == |n2|
    ensures n1 == n2 && m1 == m2
  {
    var whole := ModuleName(n1, m1);
    assert whole[..|n1|] == n1 && whole[|n1| + 1..] == m1;
    assert whole[..|n2|] == n2 && whole[|n2| + 1..] == m2;
  }

  /** The documented uniqueness across namespaces holds when no namespace contains a dash. */
  lemma ModuleNameInjectiveWithoutDashes(n1: string, m1: string, n2: string, m2: string)
    requires '-' !in n1 && '-' !in n2
    requires ModuleName(n1, m1) == ModuleName(n2, m2)
    ensures n1 == n2 && m1 == m2
  {
    if |n1| < |n2| {
      AppendLongerPrefix(n1, m1, n2, m2);
    } else if |n2| < |n1| {
      AppendLongerPrefix(n2, m2, n1, m1);
    } else {
      ModuleNameInjectiveAtLength(n1, m1, n2, m2);
    }
  }

  /** Uniqueness fails as soon as a namespace with a dash is in use. */
  lemma ModuleNameNotInjective()
    ensures ModuleName("team", "a-http") == ModuleName("team-a", "http")
  {
    assert "team" + "-" + "a-http" == "team-a" + "-" + "http";
  }

  lemma ResourceNameInjective(a: string, b: string)
    requires ResourceName(a) == ResourceName(b)
    ensures a == b
  {
    var s := ResourceName(a);
    assert |s| == |a| + 18 && |s| == |b| + 18;
    assert s[..|a|] == a && s[..|b|] == b;
  }
}
