/** Relabelings: what the operator generates for `ingress.labels`, and what Prometheus makes of it. */
module Relabel {
  import opened Base
  import opened Api
  import opened Sorting

  /** A relabeling of the generated Probe. An unset field takes the default of Prometheus. */
  datatype Rule = Rule(
    sourceLabels: seq<string>,
    separator: Option<string>,
    targetLabel: string,
    regex: string,
    replacement: Option<string>,
    action: string,
    modulus: int)

  const EMPTY_RULE := Rule([], None, "", "", None, "", 0)
  const DEFAULT_REGEX := "(.*)"
  const DEFAULT_REPLACEMENT := "$1"
  const DEFAULT_SEPARATOR := ";"

  // ---- relabeling as Prometheus defines it ----

  /** A label set: an absent label and an empty one are the same, so no value is empty. */
  type Labels = map<string, string>

  /** The parts of Prometheus the model does not define: anchored regular expressions with their groups, the names
      of groups, word characters, valid label names, and the actions other than `replace`. */
  datatype Engine = Engine(
    find: (string, string) -> Option<seq<string>>,
    groupIndex: (string, string) -> Option<nat>,
    word: char -> bool,
    validName: string -> bool,
    other: (Rule, Labels) -> Option<Labels>)

  ghost predicate Lawful(en: Engine) {
    && en.find(DEFAULT_REGEX, "").Some?
    && (forall g :: g in en.find(DEFAULT_REGEX, "").value ==> g == "")
    && !en.word('$') && !en.word('{') && !en.word('}')
  }

  function WordLength(en: Engine, t: string): (n: nat)
    ensures n <= |t|
  {
    if t == "" || !en.word(t[0]) then 0 else 1 + WordLength(en, t[1..])
  }

  /** The length of the reference `name` or `{name}` at the start of t; 0 if there is none. */
  function ReferenceLength(en: Engine, t: string): (n: nat)
    ensures n <= |t|
  {
    if t == "" then 0
    else if t[0] == '{' then
      var n := WordLength(en, t[1..]);
      if n > 0 && n + 1 < |t| && t[n + 1] == '}' then n + 2 else 0
    else WordLength(en, t)
  }

  function ReferenceName(en: Engine, t: string): string {
    var n := ReferenceLength(en, t);
    if n > 1 && t[0] == '{' then t[1..n - 1] else t[..n]
  }

  function GroupValue(en: Engine, regex: string, groups: seq<string>, name: string): string {
    var i := en.groupIndex(regex, name);
    if i.Some? && i.value < |groups| then groups[i.value] else ""
  }

  /** Template expansion: `$$` is a dollar, `$name` and `${name}` are groups, any other dollar stands for itself. */
  function Expand(en: Engine, regex: string, groups: seq<string>, t: string): string
    decreases |t|
  {
    if t == "" then ""
    else if t[0] != '$' then [t[0]] + Expand(en, regex, groups, t[1..])
    else if |t| > 1 && t[1] == '$' then "$" + Expand(en, regex, groups, t[2..])
    else
      var n := ReferenceLength(en, t[1..]);
      if n == 0 then "$" + Expand(en, regex, groups, t[1..])
      else GroupValue(en, regex, groups, ReferenceName(en, t[1..])) + Expand(en, regex, groups, t[1 + n..])
  }

  function Join(ls: Labels, names: seq<string>, separator: string): string {
    if names == [] then ""
    else
      var v := if names[0] in ls then ls[names[0]] else "";
      if |names| == 1 then v else v + separator + Join(ls, names[1..], separator)
  }

  function SetLabel(ls: Labels, name: string, value: string): Labels {
    if value == "" then ls - {name} else ls[name := value]
  }

  function Regex(r: Rule): string {
    if r.regex == "" then DEFAULT_REGEX else r.regex
  }

  /** One relabeling step; None drops the target. */
  function ApplyRule(en: Engine, r: Rule, ls: Labels): Option<Labels> {
    if r.action == "" || r.action == "replace" then
      var separator := if r.separator.Some? then r.separator.value else DEFAULT_SEPARATOR;
      var replacement := if r.replacement.Some? then r.replacement.value else DEFAULT_REPLACEMENT;
      match en.find(Regex(r), Join(ls, r.sourceLabels, separator))
      case None => Some(ls)
      case Some(groups) =>
        var target := Expand(en, Regex(r), groups, r.targetLabel);
        if en.validName(target) then Some(SetLabel(ls, target, Expand(en, Regex(r), groups, replacement))) else Some(ls)
    else en.other(r, ls)
  }

  function ApplyAll(en: Engine, rules: seq<Rule>, ls: Labels): Option<Labels> {
    if rules == [] then Some(ls)
    else
      var next := ApplyRule(en, rules[0], ls);
      if next.None? then None else ApplyAll(en, rules[1..], next.value)
  }

  lemma {:induction false} ApplyConcat(en: Engine, a: seq<Rule>, b: seq<Rule>, ls: Labels)
    ensures ApplyAll(en, a + b, ls) ==
            (var mid := ApplyAll(en, a, ls); if mid.None? then None else ApplyAll(en, b, mid.value))
    decreases |a|
  {
    if a == [] {
      assert a + b == b;
    } else {
      assert (a + b)[1..] == a[1..] + b;
      var next := ApplyRule(en, a[0], ls);
      if next.Some? {
        ApplyConcat(en, a[1..], b, next.value);
      }
    }
  }

  // ---- the generated rules ----

  function LabelRule(k: string, value: string): Rule {
    EMPTY_RULE.(targetLabel := k, replacement := Some(value), action := "replace")
  }

  function LabelRules(keys: seq<string>, labels: map<string, string>): seq<Rule>
    requires forall k :: k in keys ==> k in labels
  {
    seq(|keys|, i requires 0 <= i < |keys| => LabelRule(keys[i], labels[keys[i]]))
  }

  /** What the documentation promises for `ingress.labels`: the labels are expanded. */
  function Overlay(ls: Labels, labels: map<string, string>): Labels {
    (ls - labels.Keys) + (map k | k in labels && labels[k] != "" :: labels[k])
  }

  /** A template without anything to expand, decided by looking at what follows each dollar. */
  ghost predicate Plain(en: Engine, t: string) {
    forall i :: 0 <= i < |t| && t[i] == '$' ==>
      !(i + 1 < |t| && t[i + 1] == '$') && ReferenceLength(en, t[i + 1..]) == 0
  }

  ghost predicate AllEmpty(groups: seq<string>) {
    forall g :: g in groups ==> g == ""
  }

  lemma NoCapture(en: Engine, regex: string, groups: seq<string>, name: string)
    requires AllEmpty(groups)
    ensures GroupValue(en, regex, groups, name) == ""
  {
    var i := en.groupIndex(regex, name);
    if i.Some? && i.value < |groups| {
      assert groups[i.value] in groups;
    }
  }

  /** With nothing captured, expansion shortens a template or leaves it alone. */
  lemma {:induction false} ExpandShrinks(en: Engine, regex: string, groups: seq<string>, t: string)
    requires AllEmpty(groups)
    ensures |Expand(en, regex, groups, t)| <= |t|
    ensures |Expand(en, regex, groups, t)| == |t| ==> Expand(en, regex, groups, t) == t
    decreases |t|
  {
    if t != "" {
      if t[0] != '$' {
        ExpandShrinks(en, regex, groups, t[1..]);
      } else if |t| > 1 && t[1] == '$' {
        ExpandShrinks(en, regex, groups, t[2..]);
      } else {
        var n := ReferenceLength(en, t[1..]);
        ExpandShrinks(en, regex, groups, t[1 + n..]);
        if n > 0 {
          NoCapture(en, regex, groups, ReferenceName(en, t[1..]));
        }
      }
    }
  }

  lemma PlainHead(en: Engine, t: string)
    requires t != ""
    ensures Plain(en, t) <==>
              (t[0] == '$' ==> !(1 < |t| && t[1] == '$') && ReferenceLength(en, t[1..]) == 0) && Plain(en, t[1..])
  {
    if Plain(en, t[1..]) && (t[0] == '$' ==> !(1 < |t| && t[1] == '$') && ReferenceLength(en, t[1..]) == 0) {
      forall i | 0 <= i < |t| && t[i] == '$'
        ensures !(i + 1 < |t| && t[i + 1] == '$') && ReferenceLength(en, t[i + 1..]) == 0
      {
        if i > 0 {
          assert t[1..][i - 1] == '$' && t[1..][i..] == t[i + 1..];
        }
      }
    }
    if Plain(en, t) {
      forall i | 0 <= i < |t[1..]| && t[1..][i] == '$'
        ensures !(i + 1 < |t[1..]| && t[1..][i + 1] == '$') && ReferenceLength(en, t[1..][i + 1..]) == 0
      {
        assert t[i + 1] == '$' && t[1..][i + 1..] == t[i + 2..];
      }
    }
  }

  /** With nothing captured, expansion leaves a template alone exactly when it is plain. */
  lemma {:induction false} ExpandIdentity(en: Engine, regex: string, groups: seq<string>, t: string)
    requires AllEmpty(groups)
    ensures Expand(en, regex, groups, t) == t <==> Plain(en, t)
    decreases |t|
  {
    if t != "" {
      PlainHead(en, t);
      assert t == [t[0]] + t[1..];
      if t[0] != '$' {
        ExpandIdentity(en, regex, groups, t[1..]);
      } else if |t| > 1 && t[1] == '$' {
        ExpandShrinks(en, regex, groups, t[2..]);
      } else {
        var n := ReferenceLength(en, t[1..]);
        if n == 0 {
          ExpandIdentity(en, regex, groups, t[1..]);
        } else {
          ExpandShrinks(en, regex, groups, t[1 + n..]);
          NoCapture(en, regex, groups, ReferenceName(en, t[1..]));
        }
      }
    }
  }

  lemma DollarFreeIsPlain(en: Engine, t: string)
    requires '$' !in t
    ensures Plain(en, t)
  {
  }

  /** What Prometheus assigns for a value: its expansion over empty groups. */
  function Assigned(en: Engine, value: string): string
    requires en.find(DEFAULT_REGEX, "").Some?
  {
    Expand(en, DEFAULT_REGEX, en.find(DEFAULT_REGEX, "").value, value)
  }

  /** The label a rule for k assigns: the target is a template too. */
  function Target(en: Engine, k: string): string
    requires en.find(DEFAULT_REGEX, "").Some?
  {
    Expand(en, DEFAULT_REGEX, en.find(DEFAULT_REGEX, "").value, k)
  }

  lemma LabelRuleSets(en: Engine, k: string, value: string, ls: Labels)
    requires Lawful(en)
    ensures ApplyRule(en, LabelRule(k, value), ls) ==
            Some(if en.validName(Target(en, k)) then SetLabel(ls, Target(en, k), Assigned(en, value)) else ls)
    ensures Plain(en, k) ==> Target(en, k) == k
  {
    ExpandIdentity(en, DEFAULT_REGEX, en.find(DEFAULT_REGEX, "").value, k);
  }

  /** The labels Prometheus assigns for a list of keys: those with valid names, their values expanded. */
  function AssignedLabels(en: Engine, keys: seq<string>, labels: map<string, string>): map<string, string>
    requires en.find(DEFAULT_REGEX, "").Some?
  {
    map k | k in labels && k in keys && en.validName(k) :: Assigned(en, labels[k])
  }

  lemma AssignedOneMore(en: Engine, keys: seq<string>, labels: map<string, string>)
    requires en.find(DEFAULT_REGEX, "").Some?
    requires keys != [] && keys[0] in labels
    ensures AssignedLabels(en, keys, labels) ==
            if en.validName(keys[0]) then AssignedLabels(en, keys[1..], labels)[keys[0] := Assigned(en, labels[keys[0]])]
            else AssignedLabels(en, keys[1..], labels)
  {
    assert keys == [keys[0]] + keys[1..];
  }

  /** The generated program, in whatever order of distinct plain keys, overlays the expansions of the values. */
  lemma {:induction false} RulesOverlayExpansions(en: Engine, keys: seq<string>, labels: map<string, string>, ls: Labels)
    requires Lawful(en)
    requires forall k :: k in keys ==> k in labels && Plain(en, k)
    requires forall i, j :: 0 <= i < j < |keys| ==> keys[i] != keys[j]
    ensures ApplyAll(en, LabelRules(keys, labels), ls) == Some(Overlay(ls, AssignedLabels(en, keys, labels)))
    decreases |keys|
  {
    hide ApplyRule, LabelRule, Assigned, Target, Plain;
    if keys == [] {
      assert AssignedLabels(en, keys, labels) == map[];
      assert Overlay(ls, map[]) == ls;
    } else {
      var k, rest := keys[0], keys[1..];
      assert LabelRules(keys, labels)[0] == LabelRule(k, labels[k]);
      assert LabelRules(keys, labels)[1..] == LabelRules(rest, labels);
      LabelRuleSets(en, k, labels[k], ls);
      AssignedOneMore(en, keys, labels);
      if en.validName(k) {
        RulesOverlayExpansions(en, rest, labels, SetLabel(ls, k, Assigned(en, labels[k])));
        OverlayOneMore(ls, k, Assigned(en, labels[k]), AssignedLabels(en, rest, labels), AssignedLabels(en, keys, labels));
      } else {
        RulesOverlayExpansions(en, rest, labels, ls);
      }
    }
  }

  lemma OverlayOneMore(ls: Labels, k: string, v: string, less: map<string, string>, part: map<string, string>)
    requires k !in less && part == less[k := v]
    ensures Overlay(SetLabel(ls, k, v), less) == Overlay(ls, part)
  {
    var a, b := Overlay(SetLabel(ls, k, v), less), Overlay(ls, part);
    assert forall j :: j in a <==> j in b;
    assert forall j :: j in a ==> a[j] == b[j];
  }

  /** Two label sets agree on a name. */
  ghost predicate AgreeAt(a: Labels, b: Labels, name: string) {
    (name in a <==> name in b) && (name in a ==> a[name] == b[name])
  }

  /** A name that no rule of the list targets keeps what it has. */
  lemma {:induction false} RulesLeave(en: Engine, keys: seq<string>, labels: map<string, string>, ls: Labels, name: string)
    requires Lawful(en)
    requires forall k :: k in keys ==> k in labels && Target(en, k) != name
    ensures ApplyAll(en, LabelRules(keys, labels), ls).Some?
    ensures AgreeAt(ls, ApplyAll(en, LabelRules(keys, labels), ls).value, name)
    decreases |keys|
  {
    hide ApplyRule, LabelRule, Assigned, Target;
    if keys != [] {
      var k, rest := keys[0], keys[1..];
      assert LabelRules(keys, labels)[0] == LabelRule(k, labels[k]);
      assert LabelRules(keys, labels)[1..] == LabelRules(rest, labels);
      LabelRuleSets(en, k, labels[k], ls);
      RulesLeave(en, rest, labels, ApplyRule(en, LabelRule(k, labels[k]), ls).value, name);
    }
  }

  /** Among keys that are not all plain, the longest one that is not is nobody's target. */
  lemma {:induction false} LongestUntargeted(en: Engine, keys: seq<string>) returns (k: string)
    requires exists i :: 0 <= i < |keys| && !Plain(en, keys[i])
    ensures k in keys && !Plain(en, k)
    ensures forall j :: j in keys && !Plain(en, j) ==> |j| <= |k|
    decreases |keys|
  {
    hide Plain;
    assert keys == [keys[0]] + keys[1..];
    if exists i :: 0 <= i < |keys[1..]| && !Plain(en, keys[1..][i]) {
      k := LongestUntargeted(en, keys[1..]);
      if !Plain(en, keys[0]) && |keys[0]| > |k| {
        k := keys[0];
      }
    } else {
      k := keys[0];
    }
  }

  lemma NotTargeted(en: Engine, j: string, k: string)
    requires Lawful(en) && !Plain(en, k)
    requires !Plain(en, j) ==> |j| <= |k|
    ensures Target(en, j) != k
  {
    var groups := en.find(DEFAULT_REGEX, "").value;
    ExpandIdentity(en, DEFAULT_REGEX, groups, j);
    ExpandShrinks(en, DEFAULT_REGEX, groups, j);
  }

  /** The relabelings of the sorted keys assign the labels to this label set. */
  ghost predicate Assigns(en: Engine, keys: seq<string>, labels: map<string, string>, ls: Labels)
    requires forall k :: k in keys ==> k in labels
  {
    ApplyAll(en, LabelRules(keys, labels), ls) == Some(Overlay(ls, labels))
  }

  /** Prometheus accepts the name, and finds nothing to expand in name or value. */
  ghost predicate Assignable(en: Engine, k: string, value: string) {
    en.validName(k) && Plain(en, k) && Plain(en, value)
  }

  /** A label set the overlay of `labels` changes at k. */
  function Disagreeing(labels: map<string, string>, k: string): Labels
    requires k in labels
  {
    if labels[k] == "" then map[k := "old"] else map[]
  }

  lemma OverlayDisagrees(labels: map<string, string>, k: string)
    requires k in labels
    ensures !AgreeAt(Disagreeing(labels, k), Overlay(Disagreeing(labels, k), labels), k)
  {
  }

  lemma NotAssignedWhenLeft(en: Engine, keys: seq<string>, labels: map<string, string>, k: string)
    requires Lawful(en) && k in labels
    requires forall j :: j in keys ==> j in labels && Target(en, j) != k
    ensures !Assigns(en, keys, labels, Disagreeing(labels, k))
  {
    RulesLeave(en, keys, labels, Disagreeing(labels, k), k);
    OverlayDisagrees(labels, k);
  }

  /** If every label set gets the labels, every key is plain. */
  lemma AssignedKeysArePlain(en: Engine, keys: seq<string>, labels: map<string, string>)
    requires Lawful(en) && (forall k :: k in keys ==> k in labels)
    requires forall ls :: Assigns(en, keys, labels, ls)
    ensures forall k :: k in keys ==> Plain(en, k)
  {
    hide Plain, Assigns, Target;
    if i :| 0 <= i < |keys| && !Plain(en, keys[i]) {
      var k := LongestUntargeted(en, keys);
      forall j | j in keys ensures Target(en, j) != k {
        NotTargeted(en, j, k);
      }
      NotAssignedWhenLeft(en, keys, labels, k);
    }
  }

  /** With plain keys: a label set disagrees where the name is invalid or the value expands. */
  lemma AssignedLabelIsAssignable(en: Engine, keys: seq<string>, labels: map<string, string>, k: string)
    requires Lawful(en) && (forall k :: k in keys <==> k in labels) && (forall k :: k in keys ==> Plain(en, k))
    requires forall i, j :: 0 <= i < j < |keys| ==> keys[i] != keys[j]
    requires (forall ls :: Assigns(en, keys, labels, ls)) && k in labels
    ensures Assignable(en, k, labels[k])
  {
    hide Plain, AssignedLabels, Overlay, LabelRules, ApplyAll;
    var ls := Disagreeing(labels, k);
    assert Assigns(en, keys, labels, ls);
    RulesOverlayExpansions(en, keys, labels, ls);
    OverlayDisagrees(labels, k);
    OverlayAt(ls, labels, k);
    AssignedAt(en, keys, labels, ls, k);
  }

  lemma AssignedAt(en: Engine, keys: seq<string>, labels: map<string, string>, ls: Labels, k: string)
    requires Lawful(en) && k in labels && k in keys
    ensures var out := Overlay(ls, AssignedLabels(en, keys, labels));
            && (!en.validName(k) ==> AgreeAt(ls, out, k))
            && (en.validName(k) ==>
                  (k in out <==> Assigned(en, labels[k]) != "") && (k in out ==> out[k] == Assigned(en, labels[k])))
    ensures Assigned(en, labels[k]) == labels[k] <==> Plain(en, labels[k])
  {
    ExpandIdentity(en, DEFAULT_REGEX, en.find(DEFAULT_REGEX, "").value, labels[k]);
  }

  lemma AssignableAreAssigned(en: Engine, keys: seq<string>, labels: map<string, string>, ls: Labels)
    requires Lawful(en) && (forall k :: k in keys <==> k in labels)
    requires forall i, j :: 0 <= i < j < |keys| ==> keys[i] != keys[j]
    requires forall k :: k in labels ==> Assignable(en, k, labels[k])
    ensures Assigns(en, keys, labels, ls)
  {
    hide Plain, Overlay, LabelRules, ApplyAll;
    RulesOverlayExpansions(en, keys, labels, ls);
    forall k | k in labels ensures Assigned(en, labels[k]) == labels[k] {
      AssignedAt(en, keys, labels, ls, k);
    }
    assert AssignedLabels(en, keys, labels) == labels;
  }

  /** The generated relabelings assign `ingress.labels`, for every label set, exactly when Prometheus accepts every
      name and nothing in the names and values gets expanded. */
  lemma IngressLabelsExactly(en: Engine, order: seq<string>, labels: map<string, string>)
    requires Lawful(en) && Lists(order, labels.Keys)
    ensures forall k :: k in Sorted(order) ==> k in labels
    ensures (forall ls :: Assigns(en, Sorted(order), labels, ls)) <==>
            (forall k :: k in labels ==> Assignable(en, k, labels[k]))
  {
    hide Lawful, Assigns, Assignable, Plain, Sorted;
    var keys := SortedKeys(order, labels);
    if forall ls :: Assigns(en, keys, labels, ls) {
      AssignedKeysArePlain(en, keys, labels);
      forall k | k in labels ensures Assignable(en, k, labels[k]) {
        AssignedLabelIsAssignable(en, keys, labels, k);
      }
    }
    if forall k :: k in labels ==> Assignable(en, k, labels[k]) {
      forall ls ensures Assigns(en, keys, labels, ls) {
        AssignableAreAssigned(en, keys, labels, ls);
      }
    }
  }

  /** Given a rule whose target is a name Prometheus does not accept, the relabeling engine assigns nothing. Under its
      classic naming scheme this hits names that are ordinary in Kubernetes, such as app.kubernetes.io/name. */
  lemma InvalidNameIsDropped(en: Engine, k: string, value: string, ls: Labels)
    requires Lawful(en) && !en.validName(k) && '$' !in k
    ensures ApplyAll(en, LabelRules([k], map[k := value]), ls) == Some(ls)
  {
    hide Plain, Target, Assigned, ApplyAll, LabelRules;
    DollarFreeIsPlain(en, k);
    RulesOverlayExpansions(en, [k], map[k := value], ls);
    assert AssignedLabels(en, [k], map[k := value]) == map[];
    assert Overlay(ls, map[]) == ls;
  }

  lemma OverlayAt(ls: Labels, labels: map<string, string>, k: string)
    requires k in labels
    ensures k in Overlay(ls, labels) <==> labels[k] != ""
    ensures k in Overlay(ls, labels) ==> Overlay(ls, labels)[k] == labels[k]
  {
  }

  lemma SortedKeys(order: seq<string>, labels: map<string, string>) returns (keys: seq<string>)
    requires Lists(order, labels.Keys)
    ensures keys == Sorted(order)
    ensures forall k :: k in keys <==> k in labels
    ensures forall i, j :: 0 <= i < j < |keys| ==> keys[i] != keys[j]
  {
    keys := Sorted(order);
    SortedIsSorted(order, labels.Keys);
    forall i, j | 0 <= i < j < |keys| ensures keys[i] != keys[j] {
      LessTotal(keys[i], keys[i]);
    }
  }

  /** The full list: the user's relabelings see the overlaid labels. */
  lemma UserRulesSeeOverlay(en: Engine, order: seq<string>, labels: map<string, string>, user: seq<Rule>, ls: Labels)
    requires Lawful(en) && (forall k :: k in labels ==> Assignable(en, k, labels[k]))
    requires Lists(order, labels.Keys)
    ensures (forall k :: k in Sorted(order) ==> k in labels)
    ensures ApplyAll(en, LabelRules(Sorted(order), labels) + user, ls) == ApplyAll(en, user, Overlay(ls, labels))
  {
    IngressLabelsExactly(en, order, labels);
    assert Assigns(en, Sorted(order), labels, ls);
    ApplyConcat(en, LabelRules(Sorted(order), labels), user, ls);
  }

  // ---- the user's relabelings ----

  const TWO_63 := 0x8000_0000_0000_0000
  const TWO_64 := 0x1_0000_0000_0000_0000

  /** The Go conversion int64(uint64). */
  function ToInt64(u: nat): int
  {
    var low := u % TWO_64;
    if low < TWO_63 then low else low - TWO_64
  }

  function OptionalText(s: string): Option<string> {
    if s != "" then Some(s) else None
  }

  function ConvertedRule(rl: RelabelConfig): Rule {
    Rule(rl.sourceLabels, OptionalText(rl.separator), rl.targetLabel, rl.regex, OptionalText(rl.replacement), rl.action,
         ToInt64(rl.modulus))
  }

  method ConvertRelabelConfig(rl: RelabelConfig) returns (rc: Rule)
    ensures rc == ConvertedRule(rl)
  {
    rc := EMPTY_RULE;
    var i := 0;
    while i < |rl.sourceLabels|
      invariant 0 <= i <= |rl.sourceLabels|
      invariant rc == EMPTY_RULE.(sourceLabels := rl.sourceLabels[..i])
    {
      rc := rc.(sourceLabels := rc.sourceLabels + [rl.sourceLabels[i]]);
      i := i + 1;
    }
    if rl.separator != "" {
      rc := rc.(separator := Some(rl.separator));
    }
    if rl.targetLabel != "" {
      rc := rc.(targetLabel := rl.targetLabel);
    }
    if rl.regex != "" {
      rc := rc.(regex := rl.regex);
    }
    if rl.replacement != "" {
      rc := rc.(replacement := Some(rl.replacement));
    }
    if rl.action != "" {
      rc := rc.(action := rl.action);
    }
    if rl.modulus != 0 {
      rc := rc.(modulus := ToInt64(rl.modulus));
    }
  }

  /** The rule with the documented defaults written out. */
  function Spelled(rl: RelabelConfig): Rule {
    Rule(rl.sourceLabels,
         Some(if rl.separator == "" then DEFAULT_SEPARATOR else rl.separator),
         rl.targetLabel,
         if rl.regex == "" then DEFAULT_REGEX else rl.regex,
         Some(if rl.replacement == "" then DEFAULT_REPLACEMENT else rl.replacement),
         "replace",
         rl.modulus)
  }

  /** Leaving a field empty means its documented default; in particular an empty replacement does not delete the
      target label but copies the first group. */
  lemma ConvertedRuleMeans(en: Engine, rl: RelabelConfig, ls: Labels)
    requires rl.action == "" || rl.action == "replace"
    ensures ApplyRule(en, ConvertedRule(rl), ls) == ApplyRule(en, Spelled(rl), ls)
  {
  }

  /** The modulus of a hashmod relabeling survives exactly below 2^63. */
  lemma ModulusSurvivesExactly(rl: RelabelConfig)
    requires rl.modulus < TWO_64
    ensures ConvertedRule(rl).modulus == rl.modulus <==> rl.modulus < TWO_63
  {
  }
}
