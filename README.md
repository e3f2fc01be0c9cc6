# ToastSileo: edge-triggered toast dispatcher and host binding

A Dafny model of the ToastSileo widget, a toast-notification component that
plugs into a Perspective-style HMI host. The model has three modules:

- `ToastTypes` (`toast_types.dfy`) holds the declared string unions for the
  toast kind, the screen position and the theme. It also holds `Props`, the
  seven-property snapshot the host hands to the view.
- `ToastView` (`toast_view.dfy`) models the view.
  - `MapOptions` builds the renderer's options record from one snapshot.
  - `Route` chooses one of the renderer's five entry points from `type`.
  - The `Dispatcher` class is the mounted view. Its field `prevTrigger`
    holds the remembered trigger. Its ghost `log` records each call the
    view makes into the renderer.
  - `Render` fires when the incoming trigger differs from `prevTrigger`,
    then stores the new trigger.
  - The pure functions `Dispatches` and `Edges` describe the effect of a
    whole sequence of renders. The lemmas count and locate the firings.
- `ToastComponent` (`toast_component.dfy`) models the host binding.
  - The property tree is a `map<string, Value>`.
  - The reducer reads the seven keys with lookup-with-default.
  - It also fixes the type identifier and the default size.
  - `ToastSileoComponent` forwards the props to the view.

The view's `type`, `position` and `theme` stay strings in `Props`. They carry
whatever string the host stored, and the code defines behaviour for values outside
the declared unions:
- an unknown `type` goes to `show`;
- any theme other than `"dark"` is light;
- `position` is passed through unchecked.

The datatypes `ToastType`, `Position` and `Theme` name the declared values.

## Model

| member | source | states |
|---|---|---|
| `ToastView.MapOptions` | web/packages/client/typescript/components/ToastSileo/ToastSileoView.tsx:19-28 | title, position and duration are passed through unchanged, and the description is the snapshot's text wrapped as markup. Fill and description style agree on one theme, and that theme is dark exactly when `theme` is `"dark"`. |
| `ToastView.FillAndStyleByTheme` | web/packages/client/typescript/components/ToastSileo/ToastSileoView.tsx:24-27 | fill is `#171717` if and only if theme is `"dark"`, and `#E7E7E7` if and only if it is not. The dark description class is chosen if and only if theme is `"dark"`. |
| `ToastView.MapOptionsDeterminedByShownFields` | web/packages/client/typescript/components/ToastSileo/ToastSileoView.tsx:19-28 | two snapshots give equal options if and only if they agree on title, description, position, duration and effective theme. `trigger` and `type` have no influence, so the options depend only on the current snapshot. |
| `ToastView.Route` | web/packages/client/typescript/components/ToastSileo/ToastSileoView.tsx:30-46 | the chosen entry point has the same name as `type`, or it is `show` and `type` is none of success, info, warning and error. Exactly one entry point is chosen. |
| `ToastView.RouteByDeclaredType` | web/packages/client/typescript/components/ToastSileo/ToastSileoView.tsx:30-46 | each declared kind reaches the entry point with its own name. `"show"`, and every value outside the declared kinds, reaches `show`. |
| `ToastView.Dispatches` | web/packages/client/typescript/components/ToastSileo/ToastSileoView.tsx:49-52 | a sequence of renders makes no more renderer calls than there are renders. |
| `ToastView.EdgesAreTheFiringRenders` | web/packages/client/typescript/components/ToastSileo/ToastSileoView.tsx:49-52 | `Edges` lists, strictly increasing, exactly the renders whose trigger differs from the one remembered before them. |
| `ToastView.DispatchesAtEdges` | web/packages/client/typescript/components/ToastSileo/ToastSileoView.tsx:18-52 | the log has one entry per firing render, in order. Each entry is the `Route`/`MapOptions` call for that render's snapshot. |
| `ToastView.DispatchCountIsEdgeCount` | web/packages/client/typescript/components/ToastSileo/ToastSileoView.tsx:49-52 | the number of renderer calls equals the number of positions whose trigger differs from the previous value. |
| `ToastView.LifetimeDispatchCount` | web/packages/client/typescript/components/ToastSileo/ToastSileoView.tsx:17-52 | from mount onwards the baseline is the first trigger, and the number of calls equals the number of adjacent trigger changes. |
| `ToastView.SteadyTriggerIsSilent` | web/packages/client/typescript/components/ToastSileo/ToastSileoView.tsx:49-52 | renders that repeat the remembered trigger make no calls. |
| `ToastView.FiveRendersFireTwice` | web/packages/client/typescript/components/ToastSileo/ToastSileoView.tsx:17-52 | triggers false, false, true, true, false fire at renders 2 and 4 only, with those renders' snapshots. |
| `ToastView.DropSilentHead` | web/packages/client/typescript/components/ToastSileo/ToastSileoView.tsx:49-52 | a first render that matches the remembered trigger adds nothing to the log. |
| `ToastView.DispatchesAfterMount` | web/packages/client/typescript/components/ToastSileo/ToastSileoView.tsx:17 | seeding the baseline with the first trigger makes the mount render silent, even when that trigger is true. |
| `ToastView.Dispatcher.constructor` | web/packages/client/typescript/components/ToastSileo/ToastSileoView.tsx:17 | mounting runs the first render. Afterwards `prevTrigger` is the first trigger and the log is empty. |
| `ToastView.Dispatcher.Render` | web/packages/client/typescript/components/ToastSileo/ToastSileoView.tsx:49-52 | afterwards `prevTrigger` is the trigger just seen. The log gains one `Route`/`MapOptions` entry if and only if the trigger differed from the old `prevTrigger`; otherwise it is unchanged. |
| `ToastView.Dispatcher.HandleToast` | web/packages/client/typescript/components/ToastSileo/ToastSileoView.tsx:18-47 | appends exactly one call: the entry point `Route` picks, with the options `MapOptions` builds. |
| `ToastView.RenderSequence` | web/packages/client/typescript/components/ToastSileo/ToastSileoView.tsx:49-52 | rendering a sequence on one view extends its log by `Dispatches` of that sequence. It leaves the last trigger remembered. |
| `ToastView.Lifetime` | web/packages/client/typescript/components/ToastSileo/ToastSileoView.tsx:17-52 | a view mounted on the first snapshot and rendered with the rest logs one call per adjacent trigger change. It ends with the last trigger remembered. |
| `ToastComponent.GetComponentType` | web/packages/client/typescript/components/ToastSileo.tsx:47-49 | the type identifier is `rad.display.toastsileo`, the same id that the Java component descriptor declares. |
| `ToastComponent.GetDefaultSize` | web/packages/client/typescript/components/ToastSileo.tsx:51-56 | the default size is 300 by 300. |
| `ToastComponent.EmptyTreeGivesDefaults` | web/packages/client/typescript/components/ToastSileo.tsx:62-72 | an empty tree gives trigger false, type info, title "title", description "description", position bottom-right, duration 4000 and theme light. |
| `ToastComponent.DefaultsAreDeclared` | web/packages/client/typescript/components/ToastSileo.tsx:12-30 | the default type, position and theme are members of the declared unions. |
| `ToastComponent.ReducerReadsEachKey` | web/packages/client/typescript/components/ToastSileo.tsx:62-72 | about `GetPropsReducer`, the model of `getPropsReducer`: in a well-kinded tree, each present key is read as stored. Each absent key takes its own default, whatever the other keys hold. |
| `ToastComponent.ReducerInvertsWrite` | web/packages/client/typescript/components/ToastSileo.tsx:62-72 | writing the seven properties into any tree and then reducing gives them back. |
| `ToastComponent.WriteInvertsReducer` | web/packages/client/typescript/components/ToastSileo.tsx:62-72 | writing back what the reducer read reproduces every stored value among the seven keys. |
| `ToastComponent.ReducerIgnoresOtherKeys` | web/packages/client/typescript/components/ToastSileo.tsx:62-72 | trees that agree on the seven keys reduce to the same props. |
| `ToastComponent.ReducerUnaffectedByOtherKey` | web/packages/client/typescript/components/ToastSileo.tsx:62-72 | setting or removing any key other than the seven leaves the reduced props unchanged. |
| `ToastComponent.ToastSileoComponent` | web/packages/client/typescript/components/ToastSileo.tsx:32-44 | the view receives all seven props, unchanged. |
| `ToastComponent.ViewSeesReducedProps` | web/packages/client/typescript/components/ToastSileo.tsx:32-44 | the reducer output and the view input are equal. The options then carry the tree's title, description, position and duration. |
| `ToastComponent.DefaultToast` | web/packages/client/typescript/components/ToastSileo.tsx:62-72 | a toast fired from an empty tree is an `info` call: "title", description "description", bottom-right, 4000 ms, light fill and light style. |

## Left out

- The toast library's entry points and the `<Toaster />` output surface are foreign calls. Each call is modelled only as an entry in the ghost `log`. What the renderer then displays is not modelled. An entry point that throws is not modelled either: in the source the render then aborts to the host's error boundary before the new trigger is stored, whereas `HandleToast` always succeeds.
- Raw-HTML injection of the description is a DOM sink. The model wraps the text in `Html(markup)` and makes no claim about sanitisation.
- The two CSS-module class names are modelled as the two distinct constants `DescriptionDark` and `DescriptionLight`.
- React's `useState` and re-render scheduling are modelled as sequential `Render` calls on one `Dispatcher`. The constructor performs the mount render. Unmounting discards the object.
- `ToastComponent.GetPropsReducer`: a stored value of a different JSON kind (a string under `trigger`, say) is read as absent and takes the default. The host's `read` would return it untyped. One visible effect: a number stored under `type` reaches `info` in the model, where the source's switch would send it to `show`. The property schema of the Java descriptor is not part of this model, and the lemmas about stored values assume `WellKinded` trees. The tree holds only booleans, integers and strings; JSON null, objects, arrays and fractional numbers are not modelled.
- `duration` is a JavaScript number. The model uses an integer number of milliseconds; it is only ever passed through.
- `getViewComponent` returns a reference to `ToastSileoComponent`. Function references are not modelled; `ToastSileoComponent` itself is.
- Registration with the host's component registry happens at module load. It is a side effect on an unseen host object, so the register-then-look-up round trip is not modelled.
- The Java descriptor builder, the gateway and designer hooks, and the HTTP endpoint are calls into the host, logging and network plumbing. The build configuration is also left out. The Java identifier appears only as the constant `DescriptorComponentId`.
- The sandbox controls and reference page are manual-testing form state.
