# Onboarding panel: step dispatch and local UI state

This project models, in Dafny, the onboarding panel of the robot module
(`Onboarding`, a React component). The model covers the following parts:

- **Step dispatch.** The external `onboardStep` selects one of four views:
  - the opener, labelled "Start" or "Resume";
  - the detail view of the selected feature, shown under a back control;
  - the feature list, showing a prefix of the available features and a collapse/expand control;
  - nothing.
- **Local state.** The panel's own state has two fields: `selectedFeature` and `featureLimit`. The limit starts at the constant 9.
- **Handlers.** These change the state and send `changeStep` / `changeRoute` requests:
  - feature click;
  - back;
  - opener click;
  - dismiss;
  - list toggle.
- **Visibility gate.** The transition's `in` prop is `onboardStep && show`.

Everything is in `onboarding.dfy`, module `Onboarding`:

- **Pure parts.** The dispatch (`Mode`), the index filter (`IndexFilter`, `Visible`), the collapse test (`Collapsed`, the component's `isCollapsed`) and the toggle arithmetic (`Toggled`) and the gate (`JsAnd`, `PanelIn`) are functions.
- **The component.** It is the class `OnboardingPanel`. Its fields are `selection`, `limit` and `effects`.
  - `effects` is the sequence of requests sent through the callback props.
  - The ghost `selectionAtEffect` records the selection that was in force when each request was sent.
  - With it, the class invariant `Valid()` can state that a `featureDetail` request is only ever sent while a feature is selected.
- **Ordering.** `setState(update, callback)` is modelled sequentially: the state update first, then the callback's request.
- **Props.** The step and the feature list are props, not state. The step is a parameter of `Content` only; the feature list is a parameter of `Content` and of `ToggleFeatures`.

## Model

| member | source | states |
|---|---|---|
| `Onboarding.OnboardingPanel.constructor` | src/modules/robot/components/onboard/Onboarding.tsx:29-35 | a new panel has no selection, limit 9, no requests sent, and satisfies the invariant |
| `Onboarding.IndexFilterIsPrefix` | src/modules/robot/components/onboard/Onboarding.tsx:121-123 | keeping the elements whose index is below the limit yields exactly the prefix of that length (by induction over the list) |
| `Onboarding.IndexFilter` | src/modules/robot/components/onboard/Onboarding.tsx:121-122 | the index filter keeps a sub-multiset of the features, never more of them than there are, and none once the index reaches the limit |
| `Onboarding.Visible` | src/modules/robot/components/onboard/Onboarding.tsx:121-123 | the visible features are exactly the first min(limit, feature count) features, in their original order |
| `Onboarding.Toggled` | src/modules/robot/components/onboard/Onboarding.tsx:142-150 | toggling a collapsed list sets the limit to the feature count; toggling an expanded one collapses it back to the constant |
| `Onboarding.ToggleTwice` | src/modules/robot/components/onboard/Onboarding.tsx:142-150 | after a toggle the limit is the constant or the feature count; two toggles restore the limit exactly when it was one of those two values |
| `Onboarding.ToggleFlipsCollapsed` | src/modules/robot/components/onboard/Onboarding.tsx:142-150 | every toggle flips `isCollapsed` (`Collapsed`), and so the label, except when exactly nine features are available |
| `Onboarding.Mode` | src/modules/robot/components/onboard/Onboarding.tsx:61-136 | the opener renders iff the step is `initial` or `inComplete`, labelled "Start" iff `initial`; the detail view renders iff `featureDetail` and shows the selection only if set; the list renders iff `featureList`, with the visible prefix and the "Explore more features" label iff collapsed; any other or unset step renders nothing |
| `Onboarding.OnboardingPanel.Content` | src/modules/robot/components/onboard/Onboarding.tsx:61-62 | rendered from the panel's own state, the detail step shows exactly the current selection, the list step shows the first min(limit, feature count) features with the "Explore more features" label exactly when the limit is 9, and an unset step shows nothing |
| `Onboarding.JsAnd` | src/modules/robot/components/onboard/Onboarding.tsx:157 | JavaScript `&&` is truthy iff both operands are, and yields a falsy left operand itself |
| `Onboarding.PanelIn` | src/modules/robot/components/onboard/Onboarding.tsx:157 | the panel is in iff `show` holds and the step is a non-empty string |
| `Onboarding.OnboardingPanel.Emit` | src/modules/robot/components/onboard/Onboarding.tsx:16-17 | sending a request appends exactly it, records the current selection with it, and changes no state |
| `Onboarding.OnboardingPanel.ActivateOpener` | src/modules/robot/components/onboard/Onboarding.tsx:76-88 | the opener click sends exactly `changeStep("featureList")` then `changeRoute("onboardStart")`, and leaves selection and limit alone |
| `Onboarding.OnboardingPanel.ActivateFeature` | src/modules/robot/components/onboard/Onboarding.tsx:37-45 | a feature click selects the feature and then sends exactly one `changeStep("featureDetail")`, which is recorded as sent with that feature selected; the limit is unchanged |
| `Onboarding.OnboardingPanel.Back` | src/modules/robot/components/onboard/Onboarding.tsx:91-96 | back clears the selection and then sends exactly one `changeStep("featureList")`; the limit is unchanged |
| `Onboarding.OnboardingPanel.Hide` | src/modules/robot/components/onboard/Onboarding.tsx:138-140 | dismiss sends exactly `changeRoute("")` and changes neither selection nor limit |
| `Onboarding.OnboardingPanel.ToggleFeatures` | src/modules/robot/components/onboard/Onboarding.tsx:146-150 | the toggle sets the limit as `Toggled` says, from the current feature count; it changes neither the selection nor the requests |
| `Onboarding.ToggleScenario` | src/modules/robot/components/onboard/Onboarding.tsx:121-150 | on a fresh panel, the list shows the first nine features labelled "Explore more features"; one toggle shows all of them ("Hide some features" unless there are exactly nine); a second toggle restores the first view |
| `Onboarding.SelectAndBackScenario` | src/modules/robot/components/onboard/Onboarding.tsx:41-105 | after a feature click the detail view shows that feature; after back the detail area is empty (the back control alone); the requests sent are the detail step, then the list step |

## Left out

- JSX layout and styling (the styled `Content` wrapper, `Greeting`, `NavButton`, `SeeAll`, icons, the emoji) are presentation only. The model keeps only which branch renders, the labels and the visible features.
- Translation through `__` is taken to be the identity on the label strings.
- `getCurrentUserName` is not part of this model, so the user's display name in the opener and the greeting is left out. The same goes for `OnboardOpener`, `ActionItem` and the `FeatureDetail` container: they are collaborators whose source is not part of this model. `forceComplete` is only passed through to the opener and is never called, so it does not appear.
- The animation of `RTG.CSSTransition` is left out: the 600 ms timeout, `appear`, the class names and the deferred unmount on exit belong to the animation scheduler. Only the boolean `in` condition (`PanelIn`) is modelled.
- React's batching and the asynchrony of `setState` are left out. Each handler is one atomic step: the state update, then the callback's request.
- The class invariant `Valid` says the limit is 9 or the feature count that the last toggle read. When the props change between renders, the current count may differ from that value.
- The handlers are not tied to the step whose branch renders their control. In the source, the opener click exists only for `initial`/`inComplete`, back only for `featureDetail`, and the feature click and the toggle only for `featureList`. In the model, `ActivateOpener`, `ActivateFeature`, `Back` and `ToggleFeatures` can run from any step. The model therefore admits more call sequences than the UI does, and the invariants proved over it over-approximate the source.
