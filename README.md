# secure-electron-context-menu: the ContextMenu object

A Dafny model of the `ContextMenu` class in `lib/index.js`. The class drives right-click menus
in an Electron application across its two processes:

- **Main process.** On the window's `context-menu` event it sends a Request with the event's
  params to the renderer. When the renderer replies with a Response, it prepares the named
  template's item list the first time that name is seen, then pops up the menu.
- **Renderer (preload) process.** On a Request it finds the element under the cursor. It reads
  the element's `cm-template` attribute and collects its `cm-payload` attributes. It always
  replies with a Response. When the main process later sends Clicked with an item id, it calls
  the handler the application registered under that id with `{params, payload}`.

Preparing a template means two things. In development mode an "Inspect element" item is
appended. For a non-null template, every item without a `click` gets one that sends Clicked
with `item.id || item.label`. This is done in place on the application's own `templates`
object. A set of prepared names makes it happen once per name, until `clearMainBindings`.

Files:

- `values.dfy` (`Values`): messages, menu items, params, outcomes and the two option strings at their defaults.
- `jsstrings.dfy` (`JsStrings`): `indexOf`, and `replace` with a string pattern and a replacement free of `$` patterns.
- `renderer_spec.dfy` (`RendererSpec`): the template name and payload map the request handler derives from an element.
- `template_spec.dfy` (`TemplateSpec`): what preparation does to an item list.
- `context_menu.dfy` (`ContextMenuModel`): the `ContextMenu` class. It has the source's fields and one method per event handler and per API call. `TemplateRegistry` stands for the application's `templates` object.
- `sessions.dfy` (`Sessions`): event sequences across both processes, proved from the handlers' contracts.

How the environment appears in the model:

- `document.elementFromPoint` and the element's attribute list become the `element: Option<Element>` argument of `HandleRequest`.
- `ipcRenderer.send` and `webContents.send` append to the instance's `sent` log.
- Handler calls append to `invoked`, and `inspectElement` calls append to `inspected`.
- `Menu.buildFromTemplate(...).popup` becomes the `Outcome` that `HandleResponse` returns.
- Callbacks are opaque `HandlerId`s.

JavaScript key coercion is modelled:

- A null template is looked up and marked under the key `"null"` (`TemplateKey`).
- An undefined click id is looked up under `"undefined"` (`PropertyKey`).

The type declarations in `lib/index.d.ts` name members that `lib/index.js` does not implement: `stagedInternalFnMap`, `cleanedTemplates`, `findContextElement`, `id`, and a third `onReceive` argument. The model follows `lib/index.js`:

- Payload attributes are those whose name contains `cm-payload` anywhere.
- Templates are changed in place.
- A missing template that is about to be prepared throws a TypeError. A null template outside development mode, and a name already marked (including the string `"null"` after a null response), hand `undefined` to the menu builder instead.

## Model

| member | source | states |
|---|---|---|
| JsStrings.IndexOf | lib/index.js:58 | `indexOf` finds the first occurrence of the pattern. It answers -1 (`None`) exactly when the pattern occurs nowhere. |
| JsStrings.ReplaceFirst | lib/index.js:59 | `replace` with a string pattern leaves a string without the pattern unchanged. Otherwise it replaces exactly the first occurrence and keeps everything before and after it; a leading pattern is stripped from the front. |
| RendererSpec.GetAttribute | lib/index.js:52 | `getAttribute` is null exactly when no attribute has the name. Otherwise it is the value of the first attribute with that name. |
| RendererSpec.TemplateOf | lib/index.js:51-54 | The template sent back is non-null only for an existing element whose template attribute is present and non-empty, and it is the value of the first attribute with that name. It is null exactly when there is no element, no template attribute, or an empty one. |
| RendererSpec.PayloadMapKeys | lib/index.js:55-61 | The attribute map's keys are exactly the stripped names of the attributes whose name contains the payload marker. |
| RendererSpec.PayloadMapLastWins | lib/index.js:57-61 | Each key holds the value of the last payload attribute stripped to it, so later attributes overwrite earlier ones. |
| RendererSpec.IsPayloadName | lib/index.js:58 | No contract of its own: the `indexOf >= 0` test. `MarkerInside` and `MarkerAnywhere` state that the marker may sit anywhere in the name. |
| RendererSpec.PayloadKey | lib/index.js:59 | No contract of its own: the name with the first `cm-payload-` removed. `PrefixedPayloadKey` and `MarkerAnywhere` state what it yields. |
| RendererSpec.PayloadMap | lib/index.js:57-61 | The attribute map after the loop has at most one key per attribute. `PayloadMapKeys` and `PayloadMapLastWins` state its keys and values. |
| RendererSpec.PrefixedPayloadKey | lib/index.js:58-59 | An attribute named `cm-payload-` + k is a payload attribute stored under k. |
| RendererSpec.MarkerInside | lib/index.js:58 | Every name with `cm-payload` somewhere inside it, whatever comes before or after, is a payload attribute. |
| RendererSpec.MarkerAnywhere | lib/index.js:58-59 | The marker need not be a prefix: `data-cm-payload-id` is stored under `data-id`. `cm-payload` alone is a payload attribute stored under its whole name. |
| TemplateSpec.TemplateKey | lib/index.js:111-112 | No contract of its own: a null template is looked up and marked (line 139) under the key `"null"`. `HandleResponse` is stated through it. |
| TemplateSpec.PropertyKey | lib/index.js:73 | No contract of its own: an undefined click id is looked up under `"undefined"`. `InjectedClickCarriesId` states that a truthy id is looked up as itself. |
| TemplateSpec.ClickId | lib/index.js:128 | No contract of its own: `item.id \|\| item.label`. `InjectedClickCarriesId` states which of the two is sent. |
| TemplateSpec.InspectItem | lib/index.js:115-120 | No contract of its own: the "Inspect element" item for a request's point. `DevelopmentAddsInspectItem` states where it goes. |
| TemplateSpec.InjectItem | lib/index.js:125-131 | No contract of its own: one step of the injection loop. `InjectEffect` states what it changes and keeps. |
| TemplateSpec.Inject | lib/index.js:134-136 | The injection loop keeps the list's length. |
| TemplateSpec.InjectAt | lib/index.js:124-136 | Injection works item by item: position i of the result is item i after one loop step. |
| TemplateSpec.InjectEffect | lib/index.js:125-130 | After injection every item has a click. Items that had one keep it unchanged. Items that had none send Clicked with `id \|\| label`. Ids and labels are untouched. |
| TemplateSpec.InjectIdempotent | lib/index.js:123-137 | Injecting an already injected list changes nothing. |
| TemplateSpec.InjectedClickCarriesId | lib/index.js:126-130 | An item without a click and with a truthy id sends Clicked with that id, which the renderer looks up under the same key. Without a truthy id it sends the label as it is. |
| TemplateSpec.Prepare | lib/index.js:114-137 | A preparation adds exactly one item in development mode and none otherwise. `DevelopmentAddsInspectItem`, `InjectEffect` and the `Reprepared` lemmas state its contents. |
| TemplateSpec.DevelopmentAddsInspectItem | lib/index.js:114-121 | A development-mode preparation gives exactly the non-development list plus one "Inspect element" item at the end, for the triggering request's point. |
| TemplateSpec.RepreparedWithoutDevelopment | lib/index.js:111-139 | Outside development mode, preparing a named list again (after the marks are cleared) gives the same list. |
| TemplateSpec.RepreparedInDevelopment | lib/index.js:114-137 | In development mode a second preparation of the same list appends a second inspect item, for the later request's point, and injects nothing new. The list grows by two in all. |
| ContextMenuModel.ContextMenu.constructor | lib/index.js:23-36 | A new object has no selected element, empty attribute, params, handler and marker maps, and has sent nothing. |
| ContextMenuModel.ContextMenu.HandleRequest | lib/index.js:44-71 | A request stores the element and the request's params. It sets the attribute map to the payload map when the element names a template, and to empty otherwise. It always sends a Response carrying the same params and `TemplateOf(element)`. Nothing else changes. |
| ContextMenuModel.ContextMenu.HandleClick | lib/index.js:72-81 | A click on a registered id calls that one handler once, with the stored params and attribute map. An unregistered id changes nothing. Only the invocation log can change. |
| ContextMenuModel.ContextMenu.OnReceive | lib/index.js:86-88 | Registering replaces any earlier handler for the same id and leaves the others. |
| ContextMenuModel.ContextMenu.ClearRendererBindings | lib/index.js:89-95 | Clearing empties the handler map and resets params to `{}`. The selection and its attribute map are untouched. |
| ContextMenuModel.ContextMenu.MainBindings | lib/index.js:100-101 | The main side captures the application's templates object and the development flag. |
| ContextMenuModel.ContextMenu.HandleContextMenu | lib/index.js:103-107 | A right-click in the window sends a Request with the event's params. |
| ContextMenuModel.ContextMenu.HandleResponse | lib/index.js:108-145 | A null template, or a name not yet marked, is prepared in place in the application's templates (`Prepare`), marked, and popped up. A marked non-null name pops up its current list with nothing changed. A missing list that is about to be prepared throws before changing anything. A null template outside development mode is marked and pops up `undefined`, and so does a marked name whose list is missing. |
| ContextMenuModel.ContextMenu.ActivateItem | lib/index.js:114-130 | Choosing an item with the injected click sends Clicked with its id-or-label. Choosing the inspect item inspects its point. Other clicks change no modelled state. |
| ContextMenuModel.ContextMenu.ClearMainBindings | lib/index.js:148-152 | Clearing forgets every prepared-template mark. |
| Sessions.RightClickThenChoose | lib/index.js:44-145 | A right-click on an element with an unprepared template, then a choice of an item without its own click whose id is registered, calls that handler exactly once. The call carries the request's params and the element's payload map. |
| Sessions.ReregisterAfterClear | lib/index.js:72-95 | After clearing and re-registering an id, a click on it calls only the new handler, with params `{}` and the attribute map kept from before. |
| Sessions.PrepareAcrossClear | lib/index.js:108-152 | In development mode the second response for a name pops up the list the first one prepared. After `clearMainBindings` and a fresh `mainBindings`, the next response appends a second inspect item. |

## Left out

- Listener wiring (`ipcRenderer.on`, `ipcMain.on`, `webContents.on`, `removeAllListeners`) carries no logic and is not modelled. Each handler method stands for one delivery to one listener. Calling `mainBindings` twice without clearing would register two response listeners; the model does not capture that. After `ClearMainBindings` the model still accepts responses, while the source has no listener until `mainBindings` is called again.
- The options merge onto the shared default object (`Object.assign`) and the module singleton are JavaScript aliasing details. The two option strings are fixed at their defaults.
- Plain-object lookups in the source also see inherited `Object.prototype` members. For example, a template named `constructor` counts as already marked, and a click id `toString` finds a "handler". The model's maps hold only own keys.
- The attribute map is a plain object, so storing under the key `__proto__` (an attribute named `cm-payload-__proto__`) goes through the inherited setter, which ignores a string value: the source stores nothing. `RendererSpec.PayloadMap` stores the key `"__proto__"` like any other.
- Handlers receive the stored `contextMenuParams` and `selectedElementAttributes` objects by reference. A handler that mutates its argument changes what later clicks receive. The model records each `Invocation` as a value, and handlers have no effect on modelled state.
- `Menu.buildFromTemplate(...).popup` and `inspectElement` are Electron calls, so only their arguments are recorded. What Electron does when handed `undefined` is outside the model.
- Application-supplied `click` functions are code outside the model. `ActivateItem` gives them no effect on modelled state.
- Menu items carry only `id`, `label` and `click`. Other Electron item properties (`role`, `type`, `submenu`, ...) pass through the source untouched and are left out. The source only touches top-level items, so submenus get no injection there either.
- The injected click evaluates `item.id || item.label` when it is clicked. The model computes it at injection, which is the same here because nothing in the model changes an item's id or label. An application that edits its items after preparation is not captured.
- Item lists are sequence values in the `TemplateRegistry` object rather than shared arrays. A popped-up list does not follow later in-place changes to the application's array.
- DOM guarantees such as unique attribute names are not imposed on the `Element` argument. `getAttribute` is modelled as taking the first attribute with the name.
- `src/index.js` (an earlier version) and `lib/index.d.ts` (type declarations) are not part of this model.
