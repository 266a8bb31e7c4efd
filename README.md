# Nina request multiplexer and task bar, modelled in Dafny

This project models two parts of the Nina browser library.

**`Nina.ajax` (lib/ajax.js).** It sends a batch of remote method calls in one HTTP request and routes the answer back to each call's callback. The model covers:

- **Normalisation.** A single call descriptor is turned into a one-element batch.
- **Instance numbering.** Calls to the same method get instance numbers from a per-method counter dictionary.
- **The call map.** It has one `[method, parameters]` entry per call.
- **File substitution (`parseFiles`).** Every parameter that holds file inputs becomes a string of synthetic ids (`writeFileId`). Each file handle is collected onto its call's `files` list (`pushFile`) and gets its `fileId` property.
- **The request.** This covers the verb, URL, async flag and header order given to `open` and `setRequestHeader`, and the parts appended to the `FormData`: the `id`, the map, then one part per file.
- **The auto-start rule.**
- **The default `readyStateChange` handler.** It has a status gate, and then dispatches each call's callback with its result key.

**`Nina.UI.taskBar` (lib/taskBar.js).** The model covers:

- the singleton guard and widget id allocation of construction and `init`;
- the `||` defaulting of the bar's rect;
- the bar and item geometry of `setRect`;
- the item list that `add` appends to and `remove` splices from;
- the active and hover items set by the item handlers.

## How the model is organised

| module | file | contents |
|---|---|---|
| `Base` | base.dfy | `Option`, JavaScript `\|\|` on strings, decimal rendering of numbers, `join("")` |
| `AjaxBatch` | ajax_batch.dfy | call descriptors, the numbering loop and its specification, the result key |
| `AjaxFiles` | ajax_files.dfy | `writeFileId`, `pushFile`, and `parseFiles` loop by loop against a specification by functions |
| `AjaxForm` | ajax_form.dfy | the form parts and how they relate to the ids written by the scan |
| `Ajax` | ajax.dfy | options, request configuration, `beginRequest`, the `AjaxRequest` object and the dispatch handler |
| `TaskBar` | taskbar.dfy | the `TaskBar`, `Item` and `Registry` classes and the geometry functions |

Each modelled loop is a `method` whose contract states its result against a specification function, or outright (the `stylize` loop of lib/taskBar.js:299-307 is DOM work and is not modelled):

- `NumberCalls` against `Numbered`, `InstanceCounts` and `Entries`;
- `ScanFiles`, `ScanArray` and `ParseCall` against `PushAll`, `WriteIds`, `Ids`, `ParsedCall` and `CallWrites`;
- `ParseAll` against `ParsedCalls` and `BatchWrites`;
- `AppendCallFiles` against `CallFileParts`, and `AppendFileParts` against `FileParts`;
- `BuildHeaders`, whose header list is stated outright;
- `AjaxRequest.ReadyStateChange` against `Deliveries`;
- `TaskBar.SetRect`, whose layout of every item is stated outright, and `TaskBar.Remove` against `SpliceFrom`.

The object `Nina.ajax` returns is the class `AjaxRequest`. Its fields are the closure and `self` state: `args`, `map` (here `callMap`), `methodInstances`, the `fileId` properties (`fileIds`), `id` and the request record. The `taskBar` widget is the class `TaskBar`. Items are `Item` objects. `Nina.UI.widgets.taskBar` and `Nina.UI.widgetIdCount` live in a `Registry` object passed to construction.

Where the code and its comments disagree, the model follows the code:

- **`delayRequest`.** The request starts at construction unless `options.delayRequest` is exactly `false` (lib/ajax.js:277). The doc comment at lib/ajax.js:48 describes the opposite. See `AutoStart`.
- **Repeated methods.** When a method occurs more than once in a batch, even its first call is looked up as `method_0`. Line 273 tests the method's final counter, not the call's own instance number (`KeyAfterNumbering`).
- **File id indices.** A bare file parameter always uses element index 0 (line 146), so two bare file parameters of one call get the same ids (`BareFileInputsCollide`). File ids are therefore not claimed to be unique.
- **Key collisions.** Result keys of different methods can collide: the methods `a`, `a` and `a_1` give keys `a_0`, `a_1` and `a_1` (`KeysOfDifferentMethodsCanCollide`).

## Model

| member | source | states |
|---|---|---|
| AjaxBatch.Normalize | lib/ajax.js:171-173 | a single descriptor becomes the one-element batch holding it; an array is kept as it is |
| AjaxBatch.NumberCalls | lib/ajax.js:174-187 | after the loop, call x's instance number is the number of earlier calls with its method; `methodInstances[m]` is the number of occurrences of m less one, for exactly the methods present; the map has one `[method, parameters]` entry per call, in call order |
| AjaxBatch.InstanceNumbersIncrease | lib/ajax.js:176-186 | calls with the same method get strictly increasing instance numbers in batch order, all below the method's occurrence count |
| AjaxBatch.InstanceNumbersCover | lib/ajax.js:176-186 | every number below a method's occurrence count is the instance number of one of its calls, so k calls are numbered 0..k-1 |
| AjaxBatch.ResultKey | lib/ajax.js:273 | the key of a call starts with its method name |
| AjaxBatch.KeyAfterNumbering | lib/ajax.js:273 | after numbering, a call's key is the bare method when the method occurs once, and `method_n` when it occurs more than once, with n the number of earlier calls of that method (so the first is `method_0`) |
| AjaxBatch.DistinctMethodsBareKeys | lib/ajax.js:273 | when all methods of a batch are distinct, every key is the bare method name |
| AjaxBatch.SameMethodDistinctKeys | lib/ajax.js:273 | two calls of the same method are looked up under different keys |
| AjaxBatch.KeysOfDifferentMethodsCanCollide | lib/ajax.js:273 | calls of methods `a`, `a`, `a_1`: the second and third are both looked up as `a_1` |
| AjaxFiles.WriteFileId | lib/ajax.js:257-259 | an id starts with `file:::` followed by the method name |
| AjaxFiles.FileIdInjective | lib/ajax.js:257-259 | for one method, equal ids have equal instance number, element index and file index |
| AjaxFiles.Subst | lib/ajax.js:138-151 | a parameter without file handles is kept; a rewritten parameter holds no file input and does not throw |
| AjaxFiles.PushFile | lib/ajax.js:250-256 | the list exists after a push, grows by one, ends with the pushed handle and keeps its earlier handles; an absent list is created |
| AjaxFiles.ScanFiles | lib/ajax.js:131-135 | every handle of a file input is pushed in order, gets the id for (z, y), and the ids are appended to `fa` in order |
| AjaxFiles.ScanArray | lib/ajax.js:126-140 | the element loop succeeds exactly when no element is null; then it collects the handles of the file inputs in element-then-file order, with their ids written and listed in the same order |
| AjaxFiles.ScanParam | lib/ajax.js:125-153 | a parameter throws exactly when it, or an element of it, is null; otherwise it is replaced as `Subst` says, with its handles pushed and ids written |
| AjaxFiles.ParseCall | lib/ajax.js:124-154 | the parameter loop of one call succeeds exactly when the call does not throw; then every parameter is substituted, the call's handles are pushed in parameter order, and their ids are written |
| AjaxFiles.ParseAll | lib/ajax.js:122-155 | `parseFiles` succeeds exactly when no call throws; then the batch is the parsed batch, and the `fileId`s are the writes of every call in batch order |
| AjaxFiles.SlotsEnumerateFiles | lib/ajax.js:126-148 | the handles found in a parameter are exactly its file handles: each at its own (element, file) position, each position once, in element-then-file order |
| AjaxFiles.BareFileInputsCollide | lib/ajax.js:142-151 | two bare file parameters of one call are both replaced by `..._files_0_0`, and both handles get that `fileId` |
| AjaxFiles.ReparseIsIdentity | lib/ajax.js:113-156 | scanning a scanned call again changes neither its parameters nor its files nor any `fileId` |
| AjaxForm.AppendCallFiles | lib/ajax.js:241-245 | one part per handle of the call's `files`, in order, named by that handle's `fileId`; earlier parts kept |
| AjaxForm.AppendFileParts | lib/ajax.js:240-246 | the parts appended are those of every call, grouped by call in batch order |
| AjaxForm.FilePartsFollowTags | lib/ajax.js:240-246 | when no call had a `files` list before, there is exactly one part per scanned handle, in scan order |
| AjaxForm.FilePartsNamedByIds | lib/ajax.js:236-246 | when no call had a `files` list before and no handle occurs twice, the k-th file part is the k-th scanned handle, named by the id substituted for it in the map |
| Ajax.BuildHeaders | lib/ajax.js:229-235 | Content-Type (the form encoding unless a non-empty type is given), then X-Requested-With, then the user's headers in their order |
| Ajax.OpenRequest | lib/ajax.js:228-235 | verb POST unless a non-empty one is given; URL is the responder URL (default `/responder`) with `?` and the id; async unless `async` is exactly false |
| Ajax.Begin | lib/ajax.js:165-249 | from a descriptor or batch: the batch is numbered and substituted, the map holds the substituted parameters, the `fileId`s are written, and the form is `id`, map, then the file parts; when `parseFiles` throws, the request holds only `id` and is not sent |
| Ajax.AjaxRequest.BeginRequest | lib/ajax.js:165-249 | the object's fields become the state `Begin` describes, starting from its current arguments and `fileId`s |
| Ajax.AutoStart | lib/ajax.js:277 | a missing `delayRequest` and `true` both start the request at construction; only `false` delays it |
| Ajax.AjaxRequest.constructor | lib/ajax.js:277-279 | `options` defaults to `{ }`; unless `delayRequest` is exactly false, the request begins from the given arguments and the `fileId`s the handles already carry; otherwise nothing is begun and the arguments and `fileId`s are as given |
| Ajax.AjaxRequest.ReadyStateChange | lib/ajax.js:260-276 | nothing unless readyState is 4 with a non-zero status; no callback unless the status is 200; otherwise the callbacks run in call order, each with its own key and `allResults[key]`, stopping at the first call without a procedure |
| Ajax.DispatchKeyAfterBegin | lib/ajax.js:273 | after `beginRequest`, call x is looked up under the bare method when it occurs once, under `method_n` otherwise |
| Ajax.SameMethodNeverShareAnswer | lib/ajax.js:272-275 | after `beginRequest`, two calls (distinct descriptors) of the same method are dispatched under different keys, whatever the answer holds |
| TaskBar.DefaultRect | lib/taskBar.js:234-240 | each member is the given value when truthy, the style's otherwise; a style of non-zero size gives a rect of non-zero size |
| TaskBar.ZeroRectFallsBack | lib/taskBar.js:236-239 | an explicit 0 in `args.rect` falls back to the style's value |
| TaskBar.BarRect | lib/taskBar.js:271-275 | the bar is as wide as the client area, `rect.h` high, at `rect.x`, and its bottom edge plus the border lies `rect.y` below the client area's bottom |
| TaskBar.ClipWidth | lib/taskBar.js:286 | the clip width and both paddings add up to the item width |
| TaskBar.SpliceFrom | lib/taskBar.js:364-370 | the splice-and-advance of the loop of `remove`, from a given index on, without the event and `removeChild` of lines 366-367; it never lengthens the list |
| TaskBar.SpliceRemovesOnly | lib/taskBar.js:364-370 | the loop removes copies of the item only: every other element keeps its number of occurrences |
| TaskBar.SpliceKeepsPrefix | lib/taskBar.js:364-370 | the elements before the loop's start index are left in place |
| TaskBar.SpliceAbsent | lib/taskBar.js:364-370 | removing an item that is not in the list leaves the list unchanged |
| TaskBar.SpliceUnique | lib/taskBar.js:364-370 | in a list without repetitions, removing an item drops exactly it and keeps the others in their order |
| TaskBar.SpliceKeepsDistinct | lib/taskBar.js:364-370 | removal keeps a list without repetitions free of them |
| TaskBar.SpliceSkipsAdjacentRepeat | lib/taskBar.js:364-370 | the loop skips the element after a match: of two adjacent equal entries one survives |
| TaskBar.Item.constructor | lib/taskBar.js:315-322 | an item holds the object, callbacks and title it was created with |
| TaskBar.TaskBar.constructor | lib/taskBar.js:43-47 | empty item list, no active or hover item, no id or rect yet |
| TaskBar.TaskBar.Init | lib/taskBar.js:227-259 | unless cancelled: takes the current widget id, increments the counter by one, registers the bar, and defaults the rect; then lays out; the items are unchanged; when the layout event is cancelled, the bar and item geometry stay as they were |
| TaskBar.TaskBar.SetRect | lib/taskBar.js:264-289 | unless cancelled: places the bar from the given rect or its own, and gives every item the style's item rect and clip width |
| TaskBar.TaskBar.Add | lib/taskBar.js:313-360 | unless cancelled: appends exactly one new item holding the given values, returns it, keeps the earlier items, and lays out; if cancelled, nothing changes and the bar is returned; when the layout event is cancelled, the geometry is unchanged and the new item has none |
| TaskBar.TaskBar.Remove | lib/taskBar.js:361-372 | the list becomes the as-written splice of the item, then the bar is laid out; if a match's removeItem event cancels, nothing changes; the active and hover items stay; when the layout event is cancelled, the geometry is unchanged; an item dropped from the list keeps its rect and clip width |
| TaskBar.TaskBar.ItemClick | lib/taskBar.js:325-331 | unless cancelled, the item becomes active and its click callback, if any, is applied |
| TaskBar.TaskBar.ItemMouseover | lib/taskBar.js:332-340 | unless cancelled, the item becomes the hover item and its mouseover callback, if any, is applied |
| TaskBar.TaskBar.ItemMouseout | lib/taskBar.js:341-348 | unless cancelled, the item's mouseout callback, if any, is applied; the hover item is never cleared |
| TaskBar.CreateTaskBar | lib/taskBar.js:34-39 | when a task bar is registered, nothing is created and nothing changes; otherwise a new, empty bar is created and initialised; it is placed unless `init` or the layout event is cancelled, and has no bar rect if either is |

## Left out

- **Transport.** `createRequest` with its XMLHttpRequest and ActiveX fallbacks (lib/ajax.js:107-112) is browser I/O, so the model assumes a request object is always created. The seven upload progress listeners (lib/ajax.js:190-217) are left out for the same reason. `open`, `setRequestHeader`, `FormData.append` and `send` are recorded in a `Request` value.
- **User `readyStateChange` override.** The override path at lib/ajax.js:218-227 is left out. Only the default handler is modelled.
- **JSON and UUID.** `JSON.stringify` is left out: the map part holds the entries it would serialise. `JSON.parse` and `Nina.createUUID` are inputs: the parsed answer is a map from keys to opaque payloads (`None` when it is not JSON), and the id is a string.
- **Diagnostic log.** The log line for a non-200 status is not modelled. The outcome records only that status.
- **Callbacks.** A callback's `this` binding (`args[x].context`) and the exceptions a callback throws are host behaviour. A dispatch is recorded as the call's index, its key and the result handed to it.
- **Missing arguments.** `Nina.assert` on a missing `args` is left out.
- **`Object.prototype` names.** Method names that coincide with `Object.prototype` members are left out: the counter dictionary is a plain map.
- **Aliasing.** Each call's `parameters` array is shared between the descriptor and its map entry. The model keeps both as values and states that the map carries the substituted parameters, which is what is serialised.
- **Shared descriptors.** Descriptors are values, so a batch is taken to hold distinct descriptor objects whose `parameters` arrays are not shared. The source behaves differently otherwise. With one object `d` at two places in the batch, `d.instanceNumber` ends at the last number, and every dispatch of `d` reads the last key (`m_1` for `[d, d]`). The scan at the first place rewrites `d.parameters`, so the later place finds no file input. `d.files` then holds each handle once, but the form loop visits `d` twice and appends each file part twice. With one `parameters` array shared by two descriptors, the first call rewrites it and the second finds no files, so it carries the first call's ids and no `files` list.
- **`fileId` as a property.** A handle's `fileId` is a property of the browser's `File` object. Here it is a map from handles to ids, carried by the `AjaxRequest` object. The constructor takes the ids the handles already carry, since a handle used by an earlier request keeps the `fileId` written then.
- Ajax.Begin: when `parseFiles` throws, the contract states only what the request holds and that it was not sent. It does not describe the batch, map and `fileId`s as partly rewritten before the throw.
- Ajax.AjaxRequest.BeginRequest: when `parseFiles` throws, the exception escapes `beginRequest` (and the constructor) after part of the batch was rewritten. The contract states only what the request holds and that it was not sent. It does not say which parameters, `files` lists and `fileId`s were rewritten before the throw.
- **Task bar DOM work.** Element creation, `noSelect`, `stylize` and `redraw`'s style strings, `appendObj`, `clipText` text measurement, `removeChild`, `appendChild` and the window resize listener are DOM work. The layout records only the rect and clip width each element is given.
- **The bar's own events.** The bar's `click`, `mouseover` and `mouseout` handlers only raise events and are left out.
- **`raiseEvent` and `Nina.beget`.** These are not part of this model. Cancellation is an input: the set of event names whose handlers cancel.
- **`args.style || Nina.UI.Style.taskBar()`.** The style is taken as an input.
- TaskBar.TaskBar.SetRect: the TypeError that `setRect()` would raise before `init` has set a rect is excluded by its precondition. `Add` and `Remove` carry the same precondition because they call it.
- TaskBar.SpliceFrom: it leaves out lines 366-367 for a second copy of the item. There the source raises `removeItem` again, and `removeChild` throws because the element was already detached, leaving the list partly spliced (`[a, b, a]` becomes `[b, a]`, where the function gives `[b]`). `Remove` requires distinct items, so its contract is not affected.
- TaskBar.TaskBar.Remove: it requires the items to be distinct. `add` always appends a new object, so a list changed only through `add` and `remove` never holds an item twice, and `Valid` records this. The list is the public array `self.items` (lib/taskBar.js:168), and the model assumes no other code pushes onto it.
