# NiceGUI: the disableable-element mixin and refreshable call sites

This project models two small stateful pieces of NiceGUI, a Python UI library,
and proves properties of the models in Dafny.

**The disableable element** (`DisableableElements`, in `disableable_element.dfy`).
An element that can be disabled holds one bindable boolean, `enabled`. It starts out
true. `enable`, `disable` and `set_enabled` assign it. Each assignment runs the
bindable property's change hook, `on_enabled_change`. The hook sets the render prop
`disable` to the negation of the new value and asks for one display update. The
class keeps three fields: `enabled`, `props` (only the `disable` key is modelled)
and `updates`, which counts update requests. The three bind methods have the
binding module link `enabled` to an attribute of another object. They return the
element itself. The model records each link request in a ghost list: its
direction, the target, the target attribute name, and a tag for each transform.
The invariant `Valid()` says that `disable`, once written, is `!enabled`. Every
assignment re-establishes it.

**Refreshable call sites** (`Refreshables`, in `refreshable.dfy`). The
implementation of `ui.refreshable` is not part of this model. The class
`Refreshable<K, D>` models only what `tests/test_refreshable.py` observes. It keeps
a map from call-site key to displayed text. The key is the bound instance for a
method, or one fixed key (here `()`) for a free function. It also counts how many
times the body has run. The body is a function of the call site, of the data it
reads when it runs, and of the run count. A synchronous `Refresh(key, data)` re-runs
only that key's body and replaces its text in one step. An asynchronous refresh has
two steps. `RefreshAsync` runs the body into a buffer and leaves the display as it
was. `Attach` then swaps the buffered text in, in one step. Between the two steps
the call site keeps its old text, a state the tests do not look at. After `Attach`
it shows the new text. That is what the async test checks: once a refresh with a
non-empty list has completed, `[]` is no longer shown. A synchronous refresh or
call drops any output still buffered for its call site, so older output never
overwrites newer text. `AsyncThenAttachIsRefresh` shows that the two asynchronous
steps end where one synchronous refresh ends.

**The label text** (`NumberRendering`, in `number_rendering.dfy`). This is the
body of the tests' `number_ui`: `'[' + ', '.join(str(n) for n in sorted(numbers)) + ']'`.
`str` on integers, `sorted` (an insertion sort, proved sorted and a permutation) and
`str.join` are written out. The lemmas show three things. The text depends only on
the multiset of the numbers. It is `[]` exactly when the list is empty. It is `[1]`,
`[1, 2]` and so on for the tests' lists. `RenderParsing` (`render_parsing.dfy`)
reads a label back. Reading a rendering back gives the sorted list. So two lists
render alike exactly when they hold the same numbers.

**The test scenarios** (`RefreshableTests`, in `refreshable_tests.dfy`). The three
tests are written as methods against the model. Each returns the texts the test
looks at, and each method's postcondition is what the test asserts there.

Change hook on equal values: the model assumes that every assignment of `enabled`
runs the change hook, including the first one in the constructor and one that
stores the value already held. The constructor therefore leaves
`props == {disable: false}` and one update. "## Left out" records this assumption.

The model does no I/O. The browser, the Selenium screen, the `asyncio.sleep(0.1)`
delay and the transport of `update()` to the browser are left out. The data a body
reads (the `numbers` list, an instance's `state`) is passed to `Call`, `Refresh` and
`RefreshAsync` as a parameter, holding its value at the moment the body runs.

## Model

| member | source | states |
|---|---|---|
| `DisableableElements.PropsAfterChange` | nicegui/elements/mixins/disableable_element.py:83 | after the hook, `disable` is present and equals `!enabled`; the key set grows by `disable` only; every other prop keeps its value |
| `DisableableElements.PropsAfterChangeOverwrites` | nicegui/elements/mixins/disableable_element.py:78-84 | after two hook runs, the props are those of the last run alone |
| `DisableableElements.DisableableElement.constructor` | nicegui/elements/mixins/disableable_element.py:12-14 | a new element is enabled, `disable` is false, one update was requested, no links, and the invariant holds |
| `DisableableElements.DisableableElement.OnEnabledChange` | nicegui/elements/mixins/disableable_element.py:78-84 | `props` becomes `PropsAfterChange(old props, value)`; `updates` rises by exactly one; `enabled` and the links are unchanged; the invariant holds afterwards exactly when `value == enabled` |
| `DisableableElements.DisableableElement.AssignEnabled` | nicegui/elements/mixins/disableable_element.py:10 | an assignment stores the value and routes it to the hook: `enabled == value`, props updated by the hook, one more update, and the invariant holds whatever it was before |
| `DisableableElements.DisableableElement.Enable` | nicegui/elements/mixins/disableable_element.py:16-18 | `enabled` is true, `disable` is false, other props unchanged, one more update, the invariant holds |
| `DisableableElements.DisableableElement.Disable` | nicegui/elements/mixins/disableable_element.py:20-22 | `enabled` is false, `disable` is true, other props unchanged, one more update, the invariant holds |
| `DisableableElements.DisableableElement.SetEnabled` | nicegui/elements/mixins/disableable_element.py:74-76 | `enabled == value`, `disable == !value`, other props unchanged, one more update, the invariant holds |
| `DisableableElements.DisableableElement.BindEnabledTo` | nicegui/elements/mixins/disableable_element.py:24-38 | returns the same element; appends exactly one element-to-target link with the given target, name and forward transform; keeps the invariant |
| `DisableableElements.DisableableElement.BindEnabledFrom` | nicegui/elements/mixins/disableable_element.py:40-54 | returns the same element; appends exactly one target-to-element link with the given target, name and backward transform; keeps the invariant |
| `DisableableElements.DisableableElement.BindEnabled` | nicegui/elements/mixins/disableable_element.py:56-72 | returns the same element; appends exactly one two-way link with both transforms; keeps the invariant |
| `DisableableElements.BindDefaults` | nicegui/elements/mixins/disableable_element.py:24-72 | with defaults, the three bind calls chain on the same element and record links to `enabled` with identity transforms, in the directions to, from and both |
| `DisableableElements.EnableIsSetEnabled` | nicegui/elements/mixins/disableable_element.py:16-22 | `enable()` leaves the same `enabled`, props and update count as `set_enabled(True)`, and `disable()` as `set_enabled(False)`, from equal starting states |
| `DisableableElements.DisableTwice` | nicegui/elements/mixins/disableable_element.py:20-22 | disabling twice leaves the enabled state and props of disabling once (two updates requested) |
| `DisableableElements.EnableTwice` | nicegui/elements/mixins/disableable_element.py:16-18 | enabling twice leaves the enabled state and props of enabling once (two updates requested) |
| `DisableableElements.Lifecycle` | nicegui/elements/mixins/disableable_element.py:12-22 | a fresh element shows (enabled, disable) = (true, false); after `disable`, `enable`, `set_enabled(False)` it shows (false, true), (true, false), (false, true) |
| `NumberRendering.Insert` | tests/test_refreshable.py:13 | inserting into a sorted list gives a sorted list with one more copy of the element |
| `NumberRendering.Sort` | tests/test_refreshable.py:13 | `sorted(numbers)` is sorted and a permutation of `numbers` |
| `NumberRendering.SortedUnique` | tests/test_refreshable.py:13 | two sorted lists with the same multiset are equal, so `sorted` is determined by its input's multiset |
| `NumberRendering.SortPermutationInvariant` | tests/test_refreshable.py:13 | lists with the same multiset sort to the same list |
| `NumberRendering.SortOfSorted` | tests/test_refreshable.py:13 | sorting a sorted list returns it unchanged |
| `NumberRendering.NatToString` | tests/test_refreshable.py:13 | `str` of a non-negative integer is a non-empty string of decimal digits with no leading zero |
| `NumberRendering.IntToString` | tests/test_refreshable.py:13 | `str` of an integer is non-empty, made of digits plus a leading `-` exactly for negative numbers |
| `NumberRendering.Decimals` | tests/test_refreshable.py:13 | the generator `str(n) for n in numbers` yields one string per number, the `str` of that number |
| `NumberRendering.Join` | tests/test_refreshable.py:13 | `sep.join(items)`; no contract of its own: `RenderParsing.ItemsRoundTrip` states that `ParseItems` reads the joined decimals back |
| `NumberRendering.Render` | tests/test_refreshable.py:13 | the label is the bracketed list: at least two characters, `[` first and `]` last; what it shows is stated by `RenderRoundTrip`, `RenderInjective`, `RenderEmptyIff` and `RenderPermutationInvariant` |
| `NumberRendering.RenderEmptyIff` | tests/test_refreshable.py:51-59 | the label is `[]` exactly when the list is empty, so the rendering of a non-empty list never shows `[]` |
| `NumberRendering.RenderPermutationInvariant` | tests/test_refreshable.py:13 | because of `sorted`, the label depends only on the multiset of the numbers, not on their order |
| `NumberRendering.RenderEmptyList` | tests/test_refreshable.py:15-19 | the rendering of the empty list is `[]` |
| `NumberRendering.RenderOne` | tests/test_refreshable.py:21-23 | the rendering of `[1]` is `[1]` |
| `NumberRendering.RenderOneTwo` | tests/test_refreshable.py:25-27 | the rendering of `[1, 2]` is `[1, 2]` |
| `NumberRendering.RenderTwoOne` | tests/test_refreshable.py:13 | the numbers are shown sorted: `[2, 1]` renders as `[1, 2]` |
| `RenderParsing.NatRoundTrip` | tests/test_refreshable.py:13 | reading the digits of `str(n)` gives `n` back |
| `RenderParsing.IntRoundTrip` | tests/test_refreshable.py:13 | reading `str(i)` as an integer gives `i` back, negative numbers included |
| `RenderParsing.ItemsRoundTrip` | tests/test_refreshable.py:13 | reading back `', '.join(str(n) for n in xs)` gives `xs` for every non-empty `xs` |
| `RenderParsing.RenderRoundTrip` | tests/test_refreshable.py:13 | reading a label back gives `sorted(numbers)`: the rendering loses only the order |
| `RenderParsing.RenderInjective` | tests/test_refreshable.py:13 | two lists render to the same label if and only if they hold the same numbers with the same multiplicities |
| `Refreshables.Refreshable.constructor` | tests/test_refreshable.py:11-12 | a new refreshable has no call sites, nothing buffered and no body runs |
| `Refreshables.Refreshable.Call` | tests/test_refreshable.py:15 | a call runs the body exactly once and displays its output at that call site; no other call site changes; output still buffered for that site is dropped |
| `Refreshables.Refreshable.Refresh` | tests/test_refreshable.py:21-31 | refreshing a known call site runs the body once and replaces only that site's text with the body's output for the current data, so after `numbers.clear()` the display is `[]` again whatever it showed before, and drops output still buffered for that site; an unknown key changes nothing |
| `Refreshables.Refreshable.RefreshAsync` | tests/test_refreshable.py:51-54 | the first step of an async refresh runs the body once into the buffer and changes nothing that is displayed |
| `Refreshables.Refreshable.Attach` | tests/test_refreshable.py:51-54 | the second step replaces the call site's text with the buffered output in one step, without running the body again |
| `Refreshables.AsyncThenAttachIsRefresh` | tests/test_refreshable.py:34-63 | from equal valid states, `RefreshAsync` then `Attach` leaves the same display, buffer and run count as one `Refresh` with the same key and data; the asynchronous refresh differs from the synchronous one only while it is in flight |
| `RefreshableTests.NumbersLabel` | tests/test_refreshable.py:11-13 | the body of `number_ui` shows `[]` exactly when there are no numbers |
| `RefreshableTests.SyncRefresh` | tests/test_refreshable.py:8-31 | the display reads `[]`, `[1]`, `[1, 2]`, `[]` after the first call and the three refreshes |
| `RefreshableTests.AsyncRefresh` | tests/test_refreshable.py:34-63 | after each async refresh the display reads `[1]`, `[1, 2]`, `[]`, so `[]` is gone after the first two refreshes, as lines 53 and 58 check; between the two steps of a refresh the site still shows the previous text, a state the test does not look at |
| `RefreshableTests.Item.constructor` | tests/test_refreshable.py:71-73 | a new instance has the given name and state 1 |
| `RefreshableTests.Item.Increment` | tests/test_refreshable.py:82-84 | the state rises by one, then only this instance's call site is re-rendered, once, with the new state, and output buffered for it is dropped |
| `RefreshableTests.ItemLabel` | tests/test_refreshable.py:79 | the body of `create_ui`, `f'{self.name} = {self.state} ({count})'`; no contract of its own: `LabelText` and `ExpectedLabels` give its text |
| `RefreshableTests.LabelText` | tests/test_refreshable.py:79 | the label `f'{name} = {state} ({count})'` spelled out for single-digit state and count |
| `RefreshableTests.ExpectedLabels` | tests/test_refreshable.py:93-100 | the body's labels for A and B at the states and counts the test reaches are the strings it looks for |
| `RefreshableTests.MultipleTargets` | tests/test_refreshable.py:86-100 | the labels read `A = 1 (1)` and `B = 1 (2)`; after incrementing A, `A = 2 (3)` and still `B = 1 (2)`; after incrementing B, still `A = 2 (3)` and `B = 2 (4)` |

## Left out

- `website/documentation.py` is documentation-site page construction and is not part of this model.
- The binding module (`BindableProperty`, `bind`, `bind_to`, `bind_from`) is not part of this model. Nothing here models value propagation, the periodic sync pass, or which side wins when a link is created.
- Change hook on equal values: this is a modelling assumption. The model runs `on_enabled_change` on every assignment of `enabled`, including the first one in `__init__` and one that stores the value already held. `BindableProperty` is not part of this model, so the code shown does not settle whether such a write skips the hook. The update counts promised by `DisableableElement.constructor`, `Enable`, `Disable`, `SetEnabled`, `DisableTwice` and `EnableTwice`, and the constructor's `disable` prop, rest on this assumption. `enabled == value` and `Valid()` would hold either way.
- BindEnabledTo: records the link only. Its contract does not promise that `enabled` stays unchanged, because the binding module may propagate a value when the link is made. It promises only that the invariant still holds.
- BindEnabledFrom: records the link only, with the same weaker contract as BindEnabledTo.
- BindEnabled: records the link only, with the same weaker contract as BindEnabledTo.
- Transforms passed to the bind methods are recorded as tags and are never applied.
- `Element` is not part of this model. That covers the constructor's `**kwargs`, every render prop except `disable`, and how `update()` is delivered to the browser; `update()` is a counter.
- The `ui.refreshable` implementation is not part of this model. Only its behaviour as the tests observe it is modelled.
- Refreshables.Refreshable.Call: the model keeps one call site per key. A second call with the same key re-renders that site, while the library would register a second target.
- A failing asynchronous body, pruning of call sites whose container is gone, and the library's handling of overlapping refreshes are not modelled, and the tests do not exercise them. The model's own rule is that a call or synchronous refresh drops output still buffered for its site.
- Containers and slots are not modelled. The async test wraps its call site in `ui.column()` (tests/test_refreshable.py:44), and the model reduces that container to the call-site key. So the model cannot express output attached to the wrong container, the failure that container setup reproduces.
- The Selenium screen, clicks, the browser, and the `asyncio.sleep(0.1)` delay of the async body are left out. A click on "Refresh" is a call of `Refresh`, or of `RefreshAsync` then `Attach`.
- The widgets a body creates (`ui.label`, `ui.button`) are reduced to the text of the label at each call site.
