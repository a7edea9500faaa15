/**
 * The ContextMenu object. Each process holds its own instance: the renderer (preload) side
 * uses the selection fields and the handler map, the main side the template marks. Messages an
 * instance sends over IPC are appended to `sent`; calls it makes into code outside the model
 * (application handlers, the inspector) are appended to `invoked` and `inspected`.
 */
module ContextMenuModel {
  import opened Values
  import opened RendererSpec
  import opened TemplateSpec

  /**
   * The application's `templates` object: template name to item list. Preparation changes it
   * through the reference captured by MainBindings, so the application sees every change.
   */
  class TemplateRegistry {
    var lists: map<string, seq<MenuItem>>

    constructor (lists: map<string, seq<MenuItem>>)
      ensures this.lists == lists
    {
      this.lists := lists;
    }
  }

  class ContextMenu {
    /** The element under the cursor at the last request, or null. */
    var selectedElement: Option<Element>
    /** Payload attributes of the selected element, keyed with the payload marker stripped. */
    var selectedElementAttributes: map<string, string>
    /** Params of the last request; `None` is the empty object `{}`. */
    var contextMenuParams: Option<Params>
    /** Handlers registered with onReceive, keyed by click id. */
    var internalFnMap: map<string, HandlerId>
    /** Names of the templates already prepared (JavaScript object used as a set). */
    var templatesCleaned: set<string>

    /** The `templates` and `isDevelopment` arguments captured by mainBindings. */
    var templates: TemplateRegistry?
    var isDevelopment: bool

    /** Messages sent over IPC, oldest first. */
    var sent: seq<Message>
    /** Calls of renderer handlers, oldest first. */
    var invoked: seq<Invocation>
    /** Points handed to the window's element inspector, oldest first. */
    var inspected: seq<(int, int)>

    /** A fresh object: no selection, empty maps, nothing sent yet. */
    constructor ()
      ensures selectedElement == None && selectedElementAttributes == map[] && contextMenuParams == None
      ensures internalFnMap == map[] && templatesCleaned == {}
      ensures templates == null && !isDevelopment
      ensures sent == [] && invoked == [] && inspected == []
    {
      selectedElement := None;
      selectedElementAttributes := map[];
      contextMenuParams := None;
      internalFnMap := map[];
      templatesCleaned := {};
      templates := null;
      isDevelopment := false;
      sent := [];
      invoked := [];
      inspected := [];
    }

    // ---------------------------------------------------------------- renderer side

    /**
     * A Request arrives with `params`; `element` is what elementFromPoint(params.x, params.y)
     * returned. The selection is reset, the payload map rebuilt when the element names a
     * template, and a Response with the same params is always sent.
     */
    method HandleRequest(params: Params, element: Option<Element>)
      modifies this`selectedElement, this`selectedElementAttributes, this`contextMenuParams, this`sent
      ensures selectedElement == element
      ensures contextMenuParams == Some(params)
      ensures selectedElementAttributes == if TemplateOf(element).Some? then PayloadMap(element.value) else map[]
      ensures sent == old(sent) + [Response(params, TemplateOf(element))]
    {
      var templateToSend: Option<string> := None;
      selectedElement := None;
      selectedElementAttributes := map[];
      contextMenuParams := Some(params);
      selectedElement := element;

      if selectedElement.Some? {
        var contextMenuTemplate := GetAttribute(selectedElement.value, TemplateAttributeName);
        if contextMenuTemplate != Some("") && contextMenuTemplate.Some? {
          var attributes := selectedElement.value;
          var i := 0;
          while i < |attributes|
            invariant 0 <= i <= |attributes|
            invariant selectedElementAttributes == PayloadMap(attributes[..i])
            invariant selectedElement == element && contextMenuParams == Some(params) && sent == old(sent)
          {
            assert attributes[..i + 1][..i] == attributes[..i];
            if IsPayloadName(attributes[i].0) {
              selectedElementAttributes := selectedElementAttributes[PayloadKey(attributes[i].0) := attributes[i].1];
            }
            i := i + 1;
          }
          assert attributes[..i] == attributes;
          templateToSend := contextMenuTemplate;
        }
      }

      sent := sent + [Response(params, templateToSend)];
    }

    /**
     * A Clicked message arrives. A handler registered under the id is called once with the
     * stored params and payload; an unknown id changes nothing.
     */
    method HandleClick(id: Option<string>)
      modifies this`invoked
      ensures PropertyKey(id) in internalFnMap ==>
                invoked == old(invoked) + [Invocation(internalFnMap[PropertyKey(id)], contextMenuParams, selectedElementAttributes)]
      ensures PropertyKey(id) !in internalFnMap ==> invoked == old(invoked)
    {
      var key := PropertyKey(id);
      if key in internalFnMap {
        var payload := Invocation(internalFnMap[key], contextMenuParams, selectedElementAttributes);
        invoked := invoked + [payload];
      }
    }

    /** onReceive: registers `func` under `id`, replacing any earlier handler for that id. */
    method OnReceive(id: string, func: HandlerId)
      modifies this`internalFnMap
      ensures internalFnMap == old(internalFnMap)[id := func]
    {
      internalFnMap := internalFnMap[id := func];
    }

    /**
     * clearRendererBindings: forgets every handler and the stored params; the selection and its
     * payload stay. Re-subscribing the two listeners changes no state.
     */
    method ClearRendererBindings()
      modifies this`internalFnMap, this`contextMenuParams
      ensures internalFnMap == map[]
      ensures contextMenuParams == None
    {
      internalFnMap := map[];
      contextMenuParams := None;
    }

    // ---------------------------------------------------------------- main side

    /** mainBindings: captures the application's templates and the development flag. */
    method MainBindings(registry: TemplateRegistry, dev: bool)
      modifies this`templates, this`isDevelopment
      ensures templates == registry && isDevelopment == dev
    {
      templates := registry;
      isDevelopment := dev;
    }

    /** The window's context-menu event: forward its params to the renderer as a Request. */
    method HandleContextMenu(params: Params)
      modifies this`sent
      ensures sent == old(sent) + [Request(params)]
    {
      sent := sent + [Request(params)];
    }

    /**
     * A Response arrives. A null template, or a name not yet marked, is prepared in place
     * (inspect item in development mode, injection for a non-null name) and marked; a marked
     * name pops up its list as it stands. A missing list makes preparation throw, except for a
     * null template outside development mode, which is marked and hands `undefined` to the menu
     * builder; a marked name whose list is missing also hands `undefined` to it.
     */
    method HandleResponse(params: Params, template: Option<string>) returns (outcome: Outcome)
      requires templates != null
      modifies this`templatesCleaned, templates
      ensures template.Some? && TemplateKey(template) in old(templatesCleaned) ==>
                templatesCleaned == old(templatesCleaned) && templates.lists == old(templates.lists) &&
                outcome == if TemplateKey(template) in templates.lists then Popup(templates.lists[TemplateKey(template)])
                           else PopupUndefined
      ensures (template.None? || TemplateKey(template) !in old(templatesCleaned)) &&
              TemplateKey(template) in old(templates.lists) ==>
                templates.lists == old(templates.lists)[TemplateKey(template) :=
                  Prepare(old(templates.lists)[TemplateKey(template)], isDevelopment, params, template.Some?)] &&
                templatesCleaned == old(templatesCleaned) + {TemplateKey(template)} &&
                outcome == Popup(templates.lists[TemplateKey(template)])
      ensures (template.None? || TemplateKey(template) !in old(templatesCleaned)) &&
              TemplateKey(template) !in old(templates.lists) ==>
                templates.lists == old(templates.lists) &&
                if isDevelopment || template.Some? then
                  outcome == TypeError && templatesCleaned == old(templatesCleaned)
                else
                  outcome == PopupUndefined && templatesCleaned == old(templatesCleaned) + {TemplateKey(template)}
    {
      var key := TemplateKey(template);
      var contextMenu: seq<MenuItem>;
      if template.None? || key !in templatesCleaned {
        if key !in templates.lists {
          if isDevelopment || template.Some? {
            // `undefined.push` (development) or `undefined.length` (injection loop)
            return TypeError;
          }
          templatesCleaned := templatesCleaned + {key};
          return PopupUndefined;
        }
        contextMenu := templates.lists[key];
        if isDevelopment {
          contextMenu := contextMenu + [InspectItem(params)];
          templates.lists := templates.lists[key := contextMenu];
        }
        if template.Some? {
          ghost var before := contextMenu;
          assert before == if isDevelopment then old(templates.lists)[key] + [InspectItem(params)] else old(templates.lists)[key];
          var i := 0;
          while i < |contextMenu|
            invariant 0 <= i <= |contextMenu| == |before|
            invariant forall j :: 0 <= j < i ==> contextMenu[j] == InjectItem(before[j])
            invariant forall j :: i <= j < |contextMenu| ==> contextMenu[j] == before[j]
            invariant templates.lists == old(templates.lists)[key := contextMenu]
            invariant templatesCleaned == old(templatesCleaned)
          {
            if contextMenu[i].click.None? {
              contextMenu := contextMenu[i := contextMenu[i].(click := Some(SendClicked(ClickId(contextMenu[i]))))];
              templates.lists := templates.lists[key := contextMenu];
            }
            i := i + 1;
          }
          forall j | 0 <= j < |contextMenu| ensures contextMenu[j] == Inject(before)[j] {
            InjectAt(before, j);
          }
          assert contextMenu == Inject(before);
        }
        templatesCleaned := templatesCleaned + {key};
      } else {
        if key !in templates.lists {
          return PopupUndefined;
        }
        contextMenu := templates.lists[key];
      }
      outcome := Popup(contextMenu);
    }

    /**
     * Electron calls the click of a chosen item. An injected click sends Clicked with the
     * item's id-or-label; the inspect item opens the inspector at its point; an application
     * click runs code outside the model.
     */
    method ActivateItem(item: MenuItem)
      modifies this`sent, this`inspected
      ensures match item.click
                case Some(SendClicked(id)) => sent == old(sent) + [Clicked(id)] && inspected == old(inspected)
                case Some(InspectAt(x, y)) => inspected == old(inspected) + [(x, y)] && sent == old(sent)
                case _ => sent == old(sent) && inspected == old(inspected)
    {
      match item.click
      case Some(SendClicked(id)) =>
        sent := sent + [Clicked(id)];
      case Some(InspectAt(x, y)) =>
        inspected := inspected + [(x, y)];
      case _ =>
    }

    /** clearMainBindings: forgets which templates were prepared (the listener removal changes no state). */
    method ClearMainBindings()
      modifies this`templatesCleaned
      ensures templatesCleaned == {}
    {
      templatesCleaned := {};
    }
  }
}
