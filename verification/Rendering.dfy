/** The loop that turns the selected modules into the module map of blackbox.yml. */
module Rendering {
  import opened Base
  import opened Api
  import opened Names
  import opened Converter
  import opened Secrets

  /** What a run takes as given: library behaviour and the data of all Secrets. */
  datatype World = World(lib: Lib, secrets: SecretStore)

  function NameOf(m: Module): string {
    ModuleName(m.meta.key.ns, m.meta.key.name)
  }

  ghost function ConversionOf(w: World, m: Module): Conversion {
    Rendered(w.lib, w.secrets, m.meta.key.ns, m.spec)
  }

  ghost predicate Convertible(w: World, m: Module) {
    ConversionOf(w, m).Converted?
  }

  /** The credentials a module is rendered with are those its own namespace holds under the names and keys it gives. */
  lemma RenderedCredentials(w: World, m: Module)
    requires m.spec.http.Some? && (forall s :: IsSet(m.spec, s) ==> s == HTTP) && ConversionOf(w, m).Converted?
    requires Resolved(w.secrets, m.meta.key.ns, m.spec).Ok? && m.spec.http.value.basicAuth.Some?
    ensures var ref, out := m.spec.http.value.basicAuth.value.passwordRef, ConversionOf(w, m).m.http;
            && Key(m.meta.key.ns, ref.name) in w.secrets && ref.key in w.secrets[Key(m.meta.key.ns, ref.name)]
            && out.Some? && out.value.basicAuth.Some?
            && out.value.basicAuth.value.password == w.secrets[Key(m.meta.key.ns, ref.name)][ref.key]
  {
    HTTPSecretFlow(w.lib, w.secrets, m.meta.key.ns, m.spec);
  }

  /** A module as the loop sees it: its rendered name and its conversion. */
  datatype Entry = Entry(name: string, conversion: Conversion)

  ghost function EntryOf(w: World, m: Module): Entry {
    Entry(NameOf(m), ConversionOf(w, m))
  }

  ghost function Entries(w: World, ms: seq<Module>): seq<Entry> {
    seq(|ms|, i requires 0 <= i < |ms| => EntryOf(w, ms[i]))
  }

  /** The map after the loop has passed over `es`; None when a conversion panicked. */
  ghost function Collected(es: seq<Entry>): Option<map<string, ExporterModule>> {
    if es == [] then Some(map[])
    else
      var before, last := Collected(es[..|es| - 1]), es[|es| - 1];
      if before.None? || last.conversion.Panics? then None
      else if last.conversion.Rejected? then before
      else Some(before.value[last.name := last.conversion.m])
  }

  ghost function ModuleMap(w: World, ms: seq<Module>): Option<map<string, ExporterModule>> {
    Collected(Entries(w, ms))
  }

  method BuildModuleMap(w: World, ms: seq<Module>) returns (r: Option<map<string, ExporterModule>>)
    ensures r == ModuleMap(w, ms)
  {
    hide Convert, Resolved;
    ghost var es := Entries(w, ms);
    var bbModules: map<string, ExporterModule> := map[];
    var i := 0;
    while i < |ms|
      invariant 0 <= i <= |ms|
      invariant Collected(es[..i]) == Some(bbModules)
    {
      var mod := ms[i];
      var resolved := ResolveModuleSecrets(w.secrets, mod.meta.key.ns, mod.spec);
      var secrets := if resolved.Ok? then resolved.value else NO_SECRETS;
      var converted := ConvertModule(w.lib, mod.spec, Some(secrets));
      assert es[i] == Entry(NameOf(mod), converted);
      assert es[..i + 1][..i] == es[..i];
      i := i + 1;
      if converted.Panics? {
        PanicIsFinal(es, i);
        return None;
      }
      if converted.Rejected? {
        continue;
      }
      bbModules := bbModules[NameOf(mod) := converted.m];
    }
    assert es[..|ms|] == es;
    return Some(bbModules);
  }

  lemma {:induction false} PanicIsFinal(es: seq<Entry>, i: nat)
    requires i <= |es| && Collected(es[..i]).None?
    ensures Collected(es).None?
    decreases |es| - i
  {
    if i == |es| {
      assert es[..i] == es;
    } else {
      assert es[..i + 1][..i] == es[..i];
      PanicIsFinal(es, i + 1);
    }
  }

  ghost predicate Binds(e: Entry, name: string) {
    e.conversion.Converted? && e.name == name
  }

  /** es[i] is the last converted entry of the list with its name. */
  ghost predicate LastOfName(es: seq<Entry>, i: nat) {
    && i < |es| && es[i].conversion.Converted?
    && (forall j :: i < j < |es| ==> !Binds(es[j], es[i].name))
  }

  /** The loop fails exactly when some module panics. */
  lemma {:induction false} CollectedFailsExactly(es: seq<Entry>)
    ensures Collected(es).None? <==> exists i :: 0 <= i < |es| && es[i].conversion.Panics?
  {
    if es != [] {
      var n := |es| - 1;
      CollectedFailsExactly(es[..n]);
      if i :| 0 <= i < |es| && es[i].conversion.Panics? {
        if i < n {
          assert es[..n][i].conversion.Panics?;
        }
      }
    }
  }

  /** The map binds exactly the names of the convertible modules. */
  lemma {:induction false} CollectedNames(es: seq<Entry>, name: string)
    requires Collected(es).Some?
    ensures name in Collected(es).value <==> exists i :: 0 <= i < |es| && Binds(es[i], name)
  {
    if es != [] {
      var n := |es| - 1;
      CollectedNames(es[..n], name);
      if i :| 0 <= i < |es| && Binds(es[i], name) {
        if i < n {
          assert Binds(es[..n][i], name);
        }
      }
      if i :| 0 <= i < n && Binds(es[..n][i], name) {
        assert Binds(es[i], name);
      }
    }
  }

  /** Each name is bound to the conversion of the last convertible module with that name, in list order. */
  lemma {:induction false} LastOfNameWins(es: seq<Entry>, i: nat)
    requires Collected(es).Some? && LastOfName(es, i)
    ensures es[i].name in Collected(es).value
    ensures Collected(es).value[es[i].name] == es[i].conversion.m
  {
    var n := |es| - 1;
    if i < n {
      assert !Binds(es[n], es[i].name);
      assert forall j :: 0 <= j < n ==> es[..n][j] == es[j];
      LastOfNameWins(es[..n], i);
    }
  }

  /** Whatever a name is bound to is the conversion of an entry with that name. */
  lemma {:induction false} BoundValue(es: seq<Entry>, name: string) returns (i: nat)
    requires Collected(es).Some? && name in Collected(es).value
    ensures i < |es| && Binds(es[i], name) && Collected(es).value[name] == es[i].conversion.m
  {
    var n := |es| - 1;
    if Binds(es[n], name) {
      i := n;
    } else {
      i := BoundValue(es[..n], name);
    }
  }

  ghost function ConvertedCount(es: seq<Entry>): nat {
    if es == [] then 0
    else ConvertedCount(es[..|es| - 1]) + (if es[|es| - 1].conversion.Converted? then 1 else 0)
  }

  ghost predicate NamesDistinct(es: seq<Entry>) {
    forall i, j :: 0 <= i < j < |es| && es[i].conversion.Converted? ==> !Binds(es[j], es[i].name)
  }

  /** status.moduleCount never exceeds the number of convertible modules, and equals it exactly when their names differ. */
  lemma {:induction false} ModuleCountExactly(es: seq<Entry>)
    requires Collected(es).Some?
    ensures |Collected(es).value| <= ConvertedCount(es)
    ensures |Collected(es).value| == ConvertedCount(es) <==> NamesDistinct(es)
  {
    if es != [] {
      var n := |es| - 1;
      var last := es[n];
      ModuleCountExactly(es[..n]);
      CollectedNames(es[..n], last.name);
      assert forall i :: 0 <= i < n ==> es[..n][i] == es[i];
      assert NamesDistinct(es) ==> NamesDistinct(es[..n]);
      var prev := Collected(es[..n]).value;
      if last.conversion.Converted? {
        var out := prev[last.name := last.conversion.m];
        if last.name in prev {
          assert out.Keys == prev.Keys;
          assert |out| == |prev|;
          var i :| 0 <= i < n && Binds(es[..n][i], last.name);
          assert Binds(es[n], es[i].name);
        } else {
          assert out.Keys == prev.Keys + {last.name};
          assert |out| == |prev| + 1;
          assert forall i :: 0 <= i < n && es[i].conversion.Converted? ==> !Binds(es[n], es[i].name) by {
            forall i | 0 <= i < n && es[i].conversion.Converted? ensures !Binds(es[n], es[i].name) {
              if es[i].name == last.name {
                assert Binds(es[..n][i], last.name);
              }
            }
          }
        }
      }
    }
  }
}
