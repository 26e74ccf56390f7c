/** A model of the onboarding panel of the robot module: the step dispatch
    that decides what the panel shows, the two pieces of local UI state
    (the selected feature and the feature display limit), the handlers that
    change them, and the effect requests the handlers send to the owner of
    the step and of the route. */
module Onboarding {

  datatype Option<+T> = None | Some(value: T)

  /** A feature offered for set-up; supplied by the caller, never changed here. */
  datatype Feature = Feature(
    name: string,
    text: string,
    description: string,
    icon: string,
    color: string,
    isComplete: bool)

  /** A request sent to the owner of shared state through a callback prop. */
  datatype Effect = ChangeStep(step: string) | ChangeRoute(route: string)

  /** Which branch of the panel renders. `Detail` holds the feature whose
      detail view appears under the back control, if any; `List` holds the
      visible features and the label of the collapse/expand control. */
  datatype View =
    | Opener(buttonText: string)
    | Detail(shown: Option<Feature>)
    | List(visible: seq<Feature>, toggleLabel: string)
    | Nothing

  // Step names the panel recognises.
  const InitialStep := "initial"
  const InCompleteStep := "inComplete"
  const FeatureDetailStep := "featureDetail"
  const FeatureListStep := "featureList"

  // Route requested by the opener.
  const OnboardStartRoute := "onboardStart"

  // Labels (translation is taken to be the identity).
  const StartLabel := "Start"
  const ResumeLabel := "Resume"
  const ExploreLabel := "Explore more features"
  const HideLabel := "Hide some features"

  /** The number of features shown while the list is collapsed. */
  const Limit: nat := 9

  function Min(a: nat, b: nat): nat { if a <= b then a else b }

  // ---------------------------------------------------------------------
  // Feature list: the visible prefix and the collapse state
  // ---------------------------------------------------------------------

  /** The elements of `s` whose index, counted from `from`, is below `limit`,
      in their original order: the list's `filter` on the element index. */
  function IndexFilter(s: seq<Feature>, limit: nat, from: nat): (r: seq<Feature>)
    ensures |r| <= |s|
    ensures multiset(r) <= multiset(s)
    ensures limit <= from ==> r == []
    decreases |s|
  {
    if s == [] then []
    else
      assert s == [s[0]] + s[1..];
      (if from < limit then [s[0]] else []) + IndexFilter(s[1..], limit, from + 1)
  }

  /** Filtering on the index is the same as taking a prefix. */
  lemma {:induction false} IndexFilterIsPrefix(s: seq<Feature>, limit: nat, from: nat)
    ensures IndexFilter(s, limit, from) == s[..Min(|s|, if from < limit then limit - from else 0)]
    decreases |s|
  {
    if s != [] {
      IndexFilterIsPrefix(s[1..], limit, from + 1);
      if from < limit {
        assert s[1..][..Min(|s| - 1, limit - from - 1)] == s[1..Min(|s|, limit - from)];
        assert [s[0]] + s[1..Min(|s|, limit - from)] == s[..Min(|s|, limit - from)];
      }
    }
  }

  /** The features shown in the list: exactly the first `min(limit, |all|)`
      of them, in order, with nothing reordered or dropped in between. */
  function Visible(all: seq<Feature>, limit: nat): (r: seq<Feature>)
    ensures |r| == Min(limit, |all|)
    ensures r == all[..Min(limit, |all|)]
  {
    IndexFilterIsPrefix(all, limit, 0);
    IndexFilter(all, limit, 0)
  }

  /** The list is collapsed exactly when the limit is the constant: the
      component's `isCollapsed`. */
  predicate Collapsed(limit: nat) {
    limit == Limit
  }

  /** The limit after the collapse/expand control is used while `count`
      features are available. */
  function Toggled(limit: nat, count: nat): (r: nat)
    ensures Collapsed(limit) ==> r == count
    ensures !Collapsed(limit) ==> Collapsed(r)
  {
    if Collapsed(limit) then count else Limit
  }

  /** The limit is always the constant or a feature count, and using the
      control twice gives back the limit it started from exactly when it
      was one of those two values. */
  lemma ToggleTwice(limit: nat, count: nat)
    ensures Toggled(limit, count) == Limit || Toggled(limit, count) == count
    ensures Toggled(Toggled(limit, count), count) == limit <==> limit == Limit || limit == count
  {
  }

  /** Every use of the control flips the collapsed state, and with it the
      control's label, except when exactly nine features are available. */
  lemma ToggleFlipsCollapsed(limit: nat, count: nat)
    ensures Collapsed(Toggled(limit, count)) <==> !Collapsed(limit) || count == Limit
  {
  }

  // ---------------------------------------------------------------------
  // Step dispatch
  // ---------------------------------------------------------------------

  /** What the panel shows for an external step, the selected feature, the
      available features and the current limit. */
  function Mode(step: Option<string>, selection: Option<Feature>, features: seq<Feature>, limit: nat): (r: View)
    ensures r.Opener? <==> step == Some(InitialStep) || step == Some(InCompleteStep)
    ensures r.Opener? ==> (r.buttonText == StartLabel <==> step == Some(InitialStep))
    // The two clauses of the form `... in {...}` only spell out the possible labels.
    ensures r.Opener? ==> r.buttonText in {StartLabel, ResumeLabel}
    ensures r.Detail? <==> step == Some(FeatureDetailStep)
    ensures r.Detail? ==> r.shown == selection
    ensures r.List? <==> step == Some(FeatureListStep)
    ensures r.List? ==> r.visible == features[..Min(limit, |features|)]
    ensures r.List? ==> (r.toggleLabel == ExploreLabel <==> Collapsed(limit))
    ensures r.List? ==> r.toggleLabel in {ExploreLabel, HideLabel}
    ensures r.Nothing? <==> step.None? || step.value !in {InitialStep, InCompleteStep, FeatureDetailStep, FeatureListStep}
  {
    if step == Some(InitialStep) || step == Some(InCompleteStep) then
      Opener(if step == Some(InitialStep) then StartLabel else ResumeLabel)
    else if step == Some(FeatureDetailStep) then
      Detail(selection)
    else if step == Some(FeatureListStep) then
      List(Visible(features, limit), if Collapsed(limit) then ExploreLabel else HideLabel)
    else
      Nothing
  }

  // ---------------------------------------------------------------------
  // Visibility gate
  // ---------------------------------------------------------------------

  /** The JavaScript values that meet in `onboardStep && show`. */
  datatype JsValue = Undefined | Str(s: string) | Bool(b: bool)

  /** JavaScript truthiness: `undefined`, the empty string and `false` are falsy. */
  predicate Truthy(v: JsValue) {
    match v
    case Undefined => false
    case Str(s) => s != ""
    case Bool(b) => b
  }

  /** JavaScript `a && b`: yields `a` itself when it is falsy, else `b`. */
  function JsAnd(a: JsValue, b: JsValue): (r: JsValue)
    ensures Truthy(r) <==> Truthy(a) && Truthy(b)
    ensures !Truthy(a) ==> r == a
  {
    if Truthy(a) then b else a
  }

  function StepValue(step: Option<string>): JsValue {
    match step
    case None => Undefined
    case Some(s) => Str(s)
  }

  /** Whether the panel is "in" (mounted and entering): the transition's
      `in` prop, `onboardStep && show`, read as a boolean. */
  function PanelIn(step: Option<string>, show: bool): (r: bool)
    ensures r <==> show && step.Some? && step.value != ""
  {
    Truthy(JsAnd(StepValue(step), Bool(show)))
  }

  // ---------------------------------------------------------------------
  // The component and its handlers
  // ---------------------------------------------------------------------

  /** One mounted panel. `effects` is the sequence of requests sent so far
      through the `changeStep` and `changeRoute` props. The ghost
      `selectionAtEffect` records, for each request, the selection in force
      when it was sent; `lastCount` is the feature count the most recent
      toggle read. */
  class OnboardingPanel {
    var selection: Option<Feature>
    var limit: nat
    var effects: seq<Effect>
    ghost var selectionAtEffect: seq<Option<Feature>>
    ghost var lastCount: nat

    /** A detail request is only ever sent once a feature is selected. The
        limit conjunct only records that the limit is the constant or the
        feature count the last toggle read (`lastCount` is set by the toggle
        itself); it says nothing about the current feature count. */
    ghost predicate Valid()
      reads this
    {
      |selectionAtEffect| == |effects|
      && (forall i :: 0 <= i < |effects| && effects[i] == ChangeStep(FeatureDetailStep) ==> selectionAtEffect[i].Some?)
      && (limit == Limit || limit == lastCount)
    }

    constructor ()
      ensures Valid()
      ensures selection == None && limit == Limit && effects == []
    {
      selection := None;
      limit := Limit;
      effects := [];
      selectionAtEffect := [];
      lastCount := 0;
    }

    /** What the panel renders for the given props in the current state. */
    function Content(step: Option<string>, features: seq<Feature>): (r: View)
      reads this
      ensures step == Some(FeatureDetailStep) ==> r == Detail(selection)
      ensures step == Some(FeatureListStep) ==> r.List? && r.visible == features[..Min(limit, |features|)]
      ensures step == Some(FeatureListStep) ==> (r.toggleLabel == ExploreLabel <==> limit == Limit)
      ensures step.None? ==> r == Nothing
    {
      Mode(step, selection, features, limit)
    }

    /** Sends one request, as seen with the state at the moment it is sent. */
    method Emit(e: Effect)
      requires Valid()
      requires e == ChangeStep(FeatureDetailStep) ==> selection.Some?
      modifies this
      ensures Valid()
      ensures effects == old(effects) + [e]
      ensures selectionAtEffect == old(selectionAtEffect) + [selection]
      ensures selection == old(selection) && limit == old(limit) && lastCount == old(lastCount)
    {
      effects := effects + [e];
      selectionAtEffect := selectionAtEffect + [selection];
    }

    /** The opener's click: asks for the list step, then the start route. */
    method ActivateOpener()
      requires Valid()
      modifies this
      ensures Valid()
      ensures effects == old(effects) + [ChangeStep(FeatureListStep), ChangeRoute(OnboardStartRoute)]
      ensures selection == old(selection) && limit == old(limit)
    {
      Emit(ChangeStep(FeatureListStep));
      Emit(ChangeRoute(OnboardStartRoute));
    }

    /** A feature summary's click: selects the feature, and only then asks
        for the detail step. */
    method ActivateFeature(f: Feature)
      requires Valid()
      modifies this
      ensures Valid()
      ensures selection == Some(f) && limit == old(limit)
      ensures effects == old(effects) + [ChangeStep(FeatureDetailStep)]
      ensures selectionAtEffect == old(selectionAtEffect) + [Some(f)]
    {
      selection := Some(f);
      Emit(ChangeStep(FeatureDetailStep));
    }

    /** The back control in the detail view: clears the selection, and only
        then asks for the list step. */
    method Back()
      requires Valid()
      modifies this
      ensures Valid()
      ensures selection == None && limit == old(limit)
      ensures effects == old(effects) + [ChangeStep(FeatureListStep)]
      ensures selectionAtEffect == old(selectionAtEffect) + [None]
    {
      selection := None;
      Emit(ChangeStep(FeatureListStep));
    }

    /** The dismiss control: asks for the empty route and nothing else. */
    method Hide()
      requires Valid()
      modifies this
      ensures Valid()
      ensures effects == old(effects) + [ChangeRoute("")]
      ensures selection == old(selection) && limit == old(limit)
    {
      Emit(ChangeRoute(""));
    }

    /** The collapse/expand control, reading the current feature count. */
    method ToggleFeatures(features: seq<Feature>)
      requires Valid()
      modifies this
      ensures Valid()
      ensures limit == Toggled(old(limit), |features|)
      ensures selection == old(selection) && effects == old(effects)
    {
      var all := |features|;
      limit := if Collapsed(limit) then all else Limit;
      lastCount := all;
    }
  }

  // ---------------------------------------------------------------------
  // Runs of a fresh panel
  // ---------------------------------------------------------------------

  /** A fresh panel on the list step shows the first nine features with the
      "explore" label; one toggle shows them all (the label changes unless
      there are exactly nine); a second toggle gives back the first view. */
  method ToggleScenario(features: seq<Feature>) returns (before: View, expanded: View, restored: View)
    ensures before == List(features[..Min(Limit, |features|)], ExploreLabel)
    ensures expanded == List(features, if |features| == Limit then ExploreLabel else HideLabel)
    ensures restored == before
  {
    var panel := new OnboardingPanel();
    before := panel.Content(Some(FeatureListStep), features);
    panel.ToggleFeatures(features);
    expanded := panel.Content(Some(FeatureListStep), features);
    panel.ToggleFeatures(features);
    restored := panel.Content(Some(FeatureListStep), features);
  }

  /** Selecting a feature and then going back: the detail view shows the
      feature just selected, after back the detail area is empty, and the
      requests sent are exactly the detail step then the list step. */
  method SelectAndBackScenario(features: seq<Feature>, f: Feature)
    returns (inDetail: View, afterBack: View, sent: seq<Effect>)
    ensures inDetail == Detail(Some(f))
    ensures afterBack == Detail(None)
    ensures sent == [ChangeStep(FeatureDetailStep), ChangeStep(FeatureListStep)]
  {
    var panel := new OnboardingPanel();
    panel.ActivateFeature(f);
    inDetail := panel.Content(Some(FeatureDetailStep), features);
    panel.Back();
    afterBack := panel.Content(Some(FeatureDetailStep), features);
    sent := panel.effects;
  }
}
