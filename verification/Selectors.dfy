/** Which pods the selectors that the operator writes match, and what a ConfigMap's overlay holds. */
module Selectors {
  import opened Kube
  import opened Resources
  import opened Names

  /** A label selector matches these labels. */
  predicate Matches(selector: Labels, labels: Labels) {
    forall k <- selector.Keys :: k in labels && labels[k] == selector[k]
  }

  /** The selector and the pod template's labels of a component's StatefulSet, whatever the version. */
  function SetSelector(cr: CR, d: Deployment): Labels {
    StatefulSetFor(cr, d, "").content.workload.selector
  }

  function Template(cr: CR, d: Deployment): Labels {
    StatefulSetFor(cr, d, "").content.workload.templateLabels
  }

  function PdbSelector(cr: CR, d: Deployment): Labels
    requires d.pdb.Some?
  {
    PdbFor(cr, d).content.pdb.selector
  }

  /** The labels of a pod: those of the template, and its own name under the pod-name label. */
  function PodLabels(cr: CR, d: Deployment, index: nat): Labels {
    Template(cr, d)[POD_NAME := PodName(d.name, index)]
  }

  // ---------- stateful sets ----------

  /** A StatefulSet's selector matches a pod exactly if the pod belongs to the same custom resource
      and, where components are told apart, carries the component's name. */
  lemma SelectorMatchesExactly(a: CR, d: Deployment, b: CR, e: Deployment, index: nat)
    ensures Matches(SetSelector(a, d), PodLabels(b, e, index)) <==>
      && a.name == b.name
      && (Multi(a) ==> STATEFULSET_NAME in Template(b, e) && Template(b, e)[STATEFULSET_NAME] == d.name)
    ensures STATEFULSET_NAME in Template(b, e) && Multi(b) ==> Template(b, e)[STATEFULSET_NAME] == e.name
  {
    SelectorIs(a, d);
    PodLabelsAre(b, e, index);
    hide SetSelector, PodLabels, Template;
    var selector, labels := SetSelector(a, d), PodLabels(b, e, index);
    assert selector["app"] == labels["app"];
  }

  lemma SelectorIs(cr: CR, d: Deployment)
    ensures SetSelector(cr, d).Keys == {"app", "hbasecluster_cr"} + if Multi(cr) then {STATEFULSET_NAME} else {}
    ensures SetSelector(cr, d)["app"] == "hbasecluster" && SetSelector(cr, d)["hbasecluster_cr"] == cr.name
    ensures Multi(cr) ==> SetSelector(cr, d)[STATEFULSET_NAME] == d.name
  {
  }

  lemma PodLabelsAre(cr: CR, d: Deployment, index: nat)
    ensures var labels, template := PodLabels(cr, d, index), Template(cr, d);
            && {"app", "hbasecluster_cr"} <= labels.Keys
            && labels["app"] == "hbasecluster" && labels["hbasecluster_cr"] == cr.name
            && (STATEFULSET_NAME in labels <==> STATEFULSET_NAME in template)
            && (STATEFULSET_NAME in labels ==> labels[STATEFULSET_NAME] == template[STATEFULSET_NAME])
            && (Multi(cr) ==> STATEFULSET_NAME in template && template[STATEFULSET_NAME] == d.name)
  {
  }

  /** So it always matches its own pods, whatever labels the user has given to the component ... */
  lemma SelectorCoversItsPods(cr: CR, d: Deployment, index: nat)
    ensures Matches(SetSelector(cr, d), Template(cr, d)) && Matches(SetSelector(cr, d), PodLabels(cr, d, index))
  {
    SelectorMatchesExactly(cr, d, cr, d, index);
  }

  /** ... and where components are told apart never those of another component or custom resource
      of that kind. */
  lemma SelectorsDoNotOverlap(a: CR, d: Deployment, b: CR, e: Deployment, index: nat)
    requires Multi(a) && Multi(b)
    ensures Matches(SetSelector(a, d), PodLabels(b, e, index)) <==> a.name == b.name && d.name == e.name
  {
    SelectorMatchesExactly(a, d, b, e, index);
    assert Template(b, e)[STATEFULSET_NAME] == e.name;
  }

  // ---------- disruption budgets ----------

  /** A disruption budget matches a pod of a component exactly if the component it is for has no
      label map of its own, when it matches everything, or if the pod has all the labels of the
      template it was built after. */
  lemma BudgetMatchesExactly(cr: CR, d: Deployment, labels: Labels)
    requires d.pdb.Some?
    ensures Matches(PdbSelector(cr, d), labels) <==> d.labels.None? || Matches(Template(cr, d), labels)
  {
  }

  /** It covers its own pods unless the user labels the component with a pod's name. */
  lemma BudgetCoversItsPods(cr: CR, d: Deployment, index: nat)
    requires d.pdb.Some?
    ensures Matches(PdbSelector(cr, d), PodLabels(cr, d, index)) <==>
      !(POD_NAME in OrEmpty(d.labels) && d.labels.value[POD_NAME] != PodName(d.name, index))
  {
    var t := Template(cr, d);
    assert POD_NAME in t <==> POD_NAME in OrEmpty(d.labels);
    assert POD_NAME in t ==> t[POD_NAME] == d.labels.value[POD_NAME];
    if POD_NAME in t && t[POD_NAME] != PodName(d.name, index) && d.labels.Some? {
      assert PdbSelector(cr, d) == t;
    }
  }

  /** The user's own labels of a component, apart from those that the operator writes over. */
  function UserLabels(cr: CR, d: Deployment): Labels {
    OrEmpty(d.labels) - SetSelector(cr, d).Keys
  }

  /** Whose pods a budget matches, for any two components of any two custom resources in a namespace:
      everybody's if its component has no label map, otherwise those that the component's
      StatefulSet selects and that have all the labels the user has given to the component. */
  lemma BudgetMatchesPodsExactly(a: CR, d: Deployment, b: CR, e: Deployment, index: nat)
    requires d.pdb.Some?
    ensures Matches(PdbSelector(a, d), PodLabels(b, e, index)) <==>
      || d.labels.None?
      || (Matches(SetSelector(a, d), PodLabels(b, e, index)) && Matches(UserLabels(a, d), PodLabels(b, e, index)))
  {
    var labels := PodLabels(b, e, index);
    BudgetMatchesExactly(a, d, labels);
    TemplateIs(a, d);
    hide PdbSelector, PodLabels, Template, SetSelector;
    MatchesBoth(OrEmpty(d.labels), SetSelector(a, d), labels);
  }

  lemma TemplateIs(cr: CR, d: Deployment)
    ensures Template(cr, d) == OrEmpty(d.labels) + SetSelector(cr, d)
  {
  }

  lemma MatchesBoth(own: Labels, selector: Labels, labels: Labels)
    ensures Matches(own + selector, labels) <==> Matches(selector, labels) && Matches(own - selector.Keys, labels)
  {
    var all := own + selector;
    if Matches(all, labels) {
      assert forall k :: k in selector ==> k in all && all[k] == selector[k];
      assert forall k :: k in own - selector.Keys ==> k in all && all[k] == own[k];
    }
  }

  /** Where both resources tell their components apart, a budget matches no pod of another component
      or resource if and only if its component has a label map of its own. */
  lemma BudgetLeavesOthersAlone(a: CR, d: Deployment, b: CR, e: Deployment, index: nat)
    requires Multi(a) && Multi(b) && d.pdb.Some? && (a.name != b.name || d.name != e.name)
    ensures Matches(PdbSelector(a, d), PodLabels(b, e, index)) <==> d.labels.None?
  {
    BudgetMatchesPodsExactly(a, d, b, e, index);
    SelectorsDoNotOverlap(a, d, b, e, index);
  }

  /** A tenant's budget, if the component's label map is empty, matches exactly the pods of the
      custom resources of the tenant's name: among them all pods of a cluster of that name. */
  lemma TenantBudgetsAreWide(a: CR, d: Deployment, b: CR, e: Deployment, index: nat)
    requires !Multi(a) && d.pdb.Some? && d.labels == Some(map[])
    ensures Matches(PdbSelector(a, d), PodLabels(b, e, index)) <==> a.name == b.name
  {
    BudgetMatchesPodsExactly(a, d, b, e, index);
    SelectorMatchesExactly(a, d, b, e, index);
    assert UserLabels(a, d) == map[];
  }

  // ---------- services ----------

  /** A pod service matches exactly one pod, by its name. */
  lemma PodServiceMatchesOnePod(a: CR, d: Deployment, i: nat, b: CR, e: Deployment, j: nat)
    ensures Matches(PodService(a, d, i).content.spec.selector, PodLabels(b, e, j)) <==>
      a.name == b.name && d.name == e.name && i == j
  {
    var selector, labels := PodService(a, d, i).content.spec.selector, PodLabels(b, e, j);
    assert selector[POD_NAME] == PodName(d.name, i) && labels[POD_NAME] == PodName(e.name, j);
    assert selector["hbasecluster_cr"] == a.name && labels["hbasecluster_cr"] == b.name;
    assert selector["app"] == labels["app"];
    if PodName(d.name, i) == PodName(e.name, j) {
      PodNameIsInjective(d.name, i, e.name, j);
    }
  }

  // ---------- config maps ----------

  /** The override elements for one namespace, in their order. */
  function Own(overrides: seq<map<string, File>>, namespace: string): seq<map<string, File>> {
    if overrides == [] then []
    else
      Own(overrides[..|overrides| - 1], namespace)
      + if OverrideNamespace(overrides[|overrides| - 1]) == namespace then [overrides[|overrides| - 1]] else []
  }

  lemma OverlayOneMore(base: map<string, File>, before: seq<map<string, File>>, elem: map<string, File>,
      namespace: string)
    ensures Overlay(base, before + [elem], namespace) ==
      var data := Overlay(base, before, namespace);
      if OverrideNamespace(elem) == namespace then data + (elem - {NAMESPACE}) else data
  {
    assert (before + [elem])[..|before + [elem]| - 1] == before;
  }

  /** Other namespaces' override elements make no difference to a ConfigMap. */
  lemma {:induction false} OverlayIgnoresOthers(base: map<string, File>, overrides: seq<map<string, File>>,
      namespace: string)
    ensures Overlay(base, overrides, namespace) == Overlay(base, Own(overrides, namespace), namespace)
    decreases |overrides|
  {
    hide Overlay, OverrideNamespace;
    if overrides == [] {
      assert Own(overrides, namespace) == [];
    } else {
      var before, elem := overrides[..|overrides| - 1], overrides[|overrides| - 1];
      assert overrides == before + [elem];
      OverlayIgnoresOthers(base, before, namespace);
      OverlayOneMore(base, before, elem, namespace);
      OverlayOneMore(base, Own(before, namespace), elem, namespace);
      assert Own(before, namespace) + [] == Own(before, namespace);
    }
  }

  /** An override element gives file `k` of the namespace's ConfigMap. */
  predicate Gives(elem: map<string, File>, namespace: string, k: string) {
    OverrideNamespace(elem) == namespace && k != NAMESPACE && k in elem
  }

  lemma {:induction false} OverlayUngiven(base: map<string, File>, overrides: seq<map<string, File>>,
      namespace: string, k: string)
    requires forall i :: 0 <= i < |overrides| ==> !Gives(overrides[i], namespace, k)
    ensures var data := Overlay(base, overrides, namespace);
            (k in data <==> k in base) && (k in base ==> data[k] == base[k])
    decreases |overrides|
  {
    if overrides != [] {
      var before, elem := overrides[..|overrides| - 1], overrides[|overrides| - 1];
      assert overrides == before + [elem] && !Gives(elem, namespace, k);
      OverlayUngiven(base, before, namespace, k);
      OverlayOneMore(base, before, elem, namespace);
      hide Overlay, OverrideNamespace;
    }
  }

  lemma {:induction false} OverlayGiven(base: map<string, File>, overrides: seq<map<string, File>>, namespace: string,
      k: string, i: nat)
    requires i < |overrides| && Gives(overrides[i], namespace, k)
    requires forall j :: i < j < |overrides| ==> !Gives(overrides[j], namespace, k)
    ensures var data := Overlay(base, overrides, namespace); k in data && data[k] == overrides[i][k]
    decreases |overrides|
  {
    var before, elem := overrides[..|overrides| - 1], overrides[|overrides| - 1];
    assert overrides == before + [elem];
    if i < |before| {
      OverlayGiven(base, before, namespace, k, i);
      assert !Gives(elem, namespace, k);
    }
    OverlayOneMore(base, before, elem, namespace);
    hide Overlay, OverrideNamespace;
  }

  /** The last element that gives a file wins; a file that none gives is that of the base, and so
      is always the one called like the namespace entry. */
  lemma OverlayTakesTheLast(base: map<string, File>, overrides: seq<map<string, File>>, namespace: string, k: string)
    ensures var data := Overlay(base, overrides, namespace);
            && (forall i :: 0 <= i < |overrides| && Gives(overrides[i], namespace, k)
                  && (forall j :: i < j < |overrides| ==> !Gives(overrides[j], namespace, k))
                  ==> k in data && data[k] == overrides[i][k])
            && ((forall i :: 0 <= i < |overrides| ==> !Gives(overrides[i], namespace, k)) ==>
                  (k in data <==> k in base) && (k in base ==> data[k] == base[k]))
  {
    hide Overlay, OverrideNamespace;
    var data := Overlay(base, overrides, namespace);
    forall i | 0 <= i < |overrides| && Gives(overrides[i], namespace, k)
        && (forall j :: i < j < |overrides| ==> !Gives(overrides[j], namespace, k))
      ensures k in data && data[k] == overrides[i][k]
    {
      OverlayGiven(base, overrides, namespace, k, i);
    }
    if forall i :: 0 <= i < |overrides| ==> !Gives(overrides[i], namespace, k) {
      OverlayUngiven(base, overrides, namespace, k);
    }
  }
}
