/** The module selector, which the source implements twice: once per module list, once per module. */
module Selector {
  import opened Base
  import opened Api

  /** Reading a Go map of labels: an absent label reads as the empty string. */
  function LabelOf(labels: map<string, string>, k: string): string {
    if k in labels then labels[k] else ""
  }

  ghost predicate NamespaceMatches(ns: string, exporterNs: string, sel: NamespaceSelector) {
    || sel.any
    || (if sel.matchNames != [] then ns in sel.matchNames else ns == exporterNs)
  }

  /** What the selector of an exporter in `exporterNs` means for a module. */
  ghost predicate Selects(sel: ModuleSelector, exporterNs: string, ns: string, labels: map<string, string>) {
    && NamespaceMatches(ns, exporterNs, sel.namespaceSelector)
    && (forall k :: k in sel.matchLabels ==> LabelOf(labels, k) == sel.matchLabels[k])
  }

  ghost predicate Matches(m: Module, e: Exporter) {
    Selects(e.spec.moduleSelector, e.meta.key.ns, m.meta.key.ns, m.meta.labels)
  }

  /** The modules of a list that an exporter selects, in list order. */
  ghost function Selected(all: seq<Module>, e: Exporter): (out: seq<Module>) {
    if all == [] then []
    else
      var last := all[|all| - 1];
      Selected(all[..|all| - 1], e) + (if Matches(last, e) then [last] else [])
  }

  /** The selection of the exporter controller. */
  method CollectModules(all: seq<Module>, exporter: Exporter) returns (matched: seq<Module>)
    ensures matched == Selected(all, exporter)
    ensures var sel := exporter.spec.moduleSelector;
            var spaces := sel.namespaceSelector;
            && (forall m :: m in matched ==> m in all)
            && (!spaces.any && spaces.matchNames == [] ==> forall m :: m in matched ==> m.meta.key.ns == exporter.meta.key.ns)
            && (!spaces.any && spaces.matchNames != [] ==> forall m :: m in matched ==> m.meta.key.ns in spaces.matchNames)
            && (forall m, k :: m in matched && k in sel.matchLabels ==>
                  (if k in m.meta.labels then m.meta.labels[k] else "") == sel.matchLabels[k])
            && (forall m :: m in all
                  && (spaces.any || m.meta.key.ns in (if spaces.matchNames == [] then [exporter.meta.key.ns] else spaces.matchNames))
                  && (forall k :: k in sel.matchLabels ==> (if k in m.meta.labels then m.meta.labels[k] else "") == sel.matchLabels[k])
                  ==> m in matched)
  {
    var sel := exporter.spec.moduleSelector;
    matched := [];
    var i := 0;
    while i < |all|
      invariant 0 <= i <= |all|
      invariant matched == Selected(all[..i], exporter)
    {
      var m := all[i];
      assert all[..i + 1][..i] == all[..i];
      i := i + 1;
      if !sel.namespaceSelector.any {
        if |sel.namespaceSelector.matchNames| > 0 {
          var found := NameFound(sel.namespaceSelector.matchNames, m.meta.key.ns);
          if !found {
            continue;
          }
        } else {
          if m.meta.key.ns != exporter.meta.key.ns {
            continue;
          }
        }
      }
      if |sel.matchLabels| > 0 {
        var matching := true;
        var rest := sel.matchLabels.Keys;
        while rest != {} && matching
          invariant rest <= sel.matchLabels.Keys
          invariant matching <==> forall k :: k in sel.matchLabels && k !in rest ==> LabelOf(m.meta.labels, k) == sel.matchLabels[k]
        {
          var k :| k in rest;
          if LabelOf(m.meta.labels, k) != sel.matchLabels[k] {
            matching := false;
          }
          rest := rest - {k};
        }
        if !matching {
          continue;
        }
      }
      matched := matched + [m];
    }
    assert all[..|all|] == all;
    forall m ensures m in matched <==> m in all && Matches(m, exporter) {
      SelectedMembers(all, exporter, m);
    }
  }

  method NameFound(names: seq<string>, ns: string) returns (found: bool)
    ensures found <==> ns in names
  {
    found := false;
    for i := 0 to |names|
      invariant !found && ns !in names[..i]
    {
      if ns == names[i] {
        found := true;
        break;
      }
    }
  }

  /** The selection of the module controller: the second implementation, with early returns. */
  method ModuleMatchesSelector(m: Module, exporter: Exporter) returns (r: bool)
    ensures r <==> Matches(m, exporter)
    ensures var sel := exporter.spec.moduleSelector;
            var spaces := sel.namespaceSelector;
            r <==>
              && (spaces.any || m.meta.key.ns in (if spaces.matchNames == [] then [exporter.meta.key.ns] else spaces.matchNames))
              && (forall k :: k in sel.matchLabels ==> (if k in m.meta.labels then m.meta.labels[k] else "") == sel.matchLabels[k])
  {
    var sel := exporter.spec.moduleSelector;
    if !sel.namespaceSelector.any {
      if |sel.namespaceSelector.matchNames| > 0 {
        var found := NameFound(sel.namespaceSelector.matchNames, m.meta.key.ns);
        if !found {
          return false;
        }
      } else {
        if m.meta.key.ns != exporter.meta.key.ns {
          return false;
        }
      }
    }
    var rest := sel.matchLabels.Keys;
    while rest != {}
      invariant rest <= sel.matchLabels.Keys
      invariant forall k :: k in sel.matchLabels && k !in rest ==> LabelOf(m.meta.labels, k) == sel.matchLabels[k]
    {
      var k :| k in rest;
      if LabelOf(m.meta.labels, k) != sel.matchLabels[k] {
        return false;
      }
      rest := rest - {k};
    }
    return true;
  }

  /** The exporters of a list that select a module, by key and in list order: the module's back references. */
  ghost function Referencing(all: seq<Exporter>, m: Module): seq<Key> {
    if all == [] then []
    else
      var last := all[|all| - 1];
      Referencing(all[..|all| - 1], m) + (if Matches(m, last) then [last.meta.key] else [])
  }

  lemma {:induction false} SelectedMembers(all: seq<Module>, e: Exporter, m: Module)
    ensures m in Selected(all, e) <==> m in all && Matches(m, e)
  {
    if all != [] {
      var n := |all| - 1;
      assert all[..n] + [all[n]] == all;
      SelectedMembers(all[..n], e, m);
    }
  }

  lemma {:induction false} ReferencingMembers(all: seq<Exporter>, m: Module, key: Key)
    ensures key in Referencing(all, m) <==> exists i :: 0 <= i < |all| && all[i].meta.key == key && Matches(m, all[i])
  {
    if all != [] {
      var n := |all| - 1;
      ReferencingMembers(all[..n], m, key);
      if key in Referencing(all[..n], m) {
        var i :| 0 <= i < n && all[..n][i].meta.key == key && Matches(m, all[..n][i]);
        assert all[i].meta.key == key && Matches(m, all[i]);
      }
      if i :| 0 <= i < |all| && all[i].meta.key == key && Matches(m, all[i]) {
        if i < n {
          assert all[..n][i] == all[i];
        }
      }
    }
  }

  /** The collected modules are a filter of the list: what stands at these increasing positions, which are all the
      positions of matching modules. */
  lemma {:induction false} SelectedInOrder(all: seq<Module>, e: Exporter) returns (positions: seq<nat>)
    ensures |positions| == |Selected(all, e)|
    ensures forall i :: 0 <= i < |positions| ==> positions[i] < |all| && all[positions[i]] == Selected(all, e)[i]
    ensures forall i, j :: 0 <= i < j < |positions| ==> positions[i] < positions[j]
    ensures forall p :: 0 <= p < |all| ==> (p in positions <==> Matches(all[p], e))
  {
    hide Matches;
    positions := [];
    if all != [] {
      var n := |all| - 1;
      positions := SelectedInOrder(all[..n], e);
      assert forall p :: 0 <= p < n ==> all[..n][p] == all[p];
      if Matches(all[n], e) {
        positions := positions + [n];
      }
    }
  }

  /** The same for back references. */
  lemma {:induction false} ReferencingInOrder(all: seq<Exporter>, m: Module) returns (positions: seq<nat>)
    ensures |positions| == |Referencing(all, m)|
    ensures forall i :: 0 <= i < |positions| ==> positions[i] < |all| && all[positions[i]].meta.key == Referencing(all, m)[i]
    ensures forall i, j :: 0 <= i < j < |positions| ==> positions[i] < positions[j]
    ensures forall p :: 0 <= p < |all| ==> (p in positions <==> Matches(m, all[p]))
  {
    hide Matches;
    positions := [];
    if all != [] {
      var n := |all| - 1;
      positions := ReferencingInOrder(all[..n], m);
      assert forall p :: 0 <= p < n ==> all[..n][p] == all[p];
      if Matches(m, all[n]) {
        positions := positions + [n];
      }
    }
  }

  /** Back references: the exporters whose namespaces include the module's, which are their own unless they say
      otherwise, and whose labels it carries. */
  lemma ReferencedExactly(all: seq<Exporter>, m: Module, key: Key)
    ensures key in Referencing(all, m) <==>
              exists e :: e in all && e.meta.key == key
                && var sel := e.spec.moduleSelector;
                   var spaces := sel.namespaceSelector;
                   && (spaces.any || m.meta.key.ns in (if spaces.matchNames == [] then [e.meta.key.ns] else spaces.matchNames))
                   && (forall k :: k in sel.matchLabels ==> (if k in m.meta.labels then m.meta.labels[k] else "") == sel.matchLabels[k])
  {
    ReferencingMembers(all, m, key);
    if i :| 0 <= i < |all| && all[i].meta.key == key && Matches(m, all[i]) {
      assert all[i] in all;
    }
  }

  /** Where all namespaces are selected, moving a module to another one changes nothing. */
  lemma MovedModule(modules: seq<Module>, e: Exporter, i: nat, ns: string)
    requires i < |modules| && e.spec.moduleSelector.namespaceSelector.any
    ensures var moved := modules[i].(meta := modules[i].meta.(key := Key(ns, modules[i].meta.key.name)));
            (moved in Selected(modules[i := moved], e) <==> modules[i] in Selected(modules, e))
            && (e.meta.key in Referencing([e], moved) <==> e.meta.key in Referencing([e], modules[i]))
  {
    var moved := modules[i].(meta := modules[i].meta.(key := Key(ns, modules[i].meta.key.name)));
    assert moved in modules[i := moved] by { assert modules[i := moved][i] == moved; }
    SelectedMembers(modules, e, modules[i]);
    SelectedMembers(modules[i := moved], e, moved);
    ReferencedExactly([e], moved, e.meta.key);
    ReferencedExactly([e], modules[i], e.meta.key);
  }

  /** On one snapshot the two controllers build inverse relations. */
  lemma ForwardAndBackReferencesAgree(modules: seq<Module>, exporters: seq<Exporter>, m: Module, e: Exporter)
    requires m in modules && e in exporters
    requires forall i, j :: 0 <= i < j < |exporters| ==> exporters[i].meta.key != exporters[j].meta.key
    ensures m in Selected(modules, e) <==> e.meta.key in Referencing(exporters, m)
  {
    SelectedMembers(modules, e, m);
    ReferencingMembers(exporters, m, e.meta.key);
    var i :| 0 <= i < |exporters| && exporters[i] == e;
  }

  lemma {:induction false} SelectedConcat(a: seq<Module>, b: seq<Module>, e: Exporter)
    ensures Selected(a + b, e) == Selected(a, e) + Selected(b, e)
  {
    if b == [] {
      assert a + b == a;
    } else {
      var n := |b| - 1;
      assert (a + b)[..|a| + n] == a + b[..n];
      SelectedConcat(a, b[..n], e);
    }
  }

  /** The meaning of `matchLabels` everywhere else in Kubernetes: the label is there, with this value. */
  ghost predicate StrictlyMatches(m: Module, e: Exporter) {
    var sel := e.spec.moduleSelector;
    && NamespaceMatches(m.meta.key.ns, e.meta.key.ns, sel.namespaceSelector)
    && (forall k :: k in sel.matchLabels ==> k in m.meta.labels && m.meta.labels[k] == sel.matchLabels[k])
  }

  /** Reading a missing label as the empty string makes a difference exactly for selectors that ask for it. */
  lemma StrictMeaningExactly(e: Exporter)
    ensures (forall m :: Matches(m, e) <==> StrictlyMatches(m, e)) <==>
            (forall k :: k in e.spec.moduleSelector.matchLabels ==> e.spec.moduleSelector.matchLabels[k] != "")
  {
    var sel := e.spec.moduleSelector;
    if k :| k in sel.matchLabels && sel.matchLabels[k] == "" {
      var ns := if sel.namespaceSelector.matchNames != [] then sel.namespaceSelector.matchNames[0] else e.meta.key.ns;
      var m := Object(ObjectMeta(Key(ns, ""), sel.matchLabels - {k}, map[], 1, 1),
                      ModuleSpec("", None, None, None, None, None, None, None), ModuleStatus([], [], "", 0));
      assert Matches(m, e) && !StrictlyMatches(m, e);
    }
  }
}
