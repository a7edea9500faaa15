/**
 * Sequences of events across the two processes, each message delivered as the last one the
 * other side sent. Everything here follows from the handlers' contracts alone.
 */
module Sessions {
  import opened Values
  import opened RendererSpec
  import opened TemplateSpec
  import opened ContextMenuModel

  /**
   * A right-click on an element naming a template not yet prepared, followed by a click on an
   * item without its own action whose id is registered on the renderer: the registered handler
   * runs once, with the request's params and the element's payload map.
   */
  method RightClickThenChoose(main: ContextMenu, renderer: ContextMenu, p: Params, element: Element, i: nat, h: HandlerId)
    returns (outcome: Outcome)
    requires main != renderer && main.templates != null
    requires TemplateOf(Some(element)).Some?
    requires TemplateOf(Some(element)).value !in main.templatesCleaned
    requires TemplateOf(Some(element)).value in main.templates.lists
    requires i < |main.templates.lists[TemplateOf(Some(element)).value]|
    requires var item := main.templates.lists[TemplateOf(Some(element)).value][i];
             item.click.None? && item.id.Some? && item.id.value != "" &&
             item.id.value in renderer.internalFnMap && renderer.internalFnMap[item.id.value] == h
    modifies main, main.templates, renderer
    ensures outcome.Popup?
    ensures renderer.invoked == old(renderer.invoked) + [Invocation(h, Some(p), PayloadMap(element))]
  {
    var name := TemplateOf(Some(element)).value;
    ghost var items := main.templates.lists[name];

    main.HandleContextMenu(p);
    var request := main.sent[|main.sent| - 1];
    renderer.HandleRequest(request.params, Some(element));
    var response := renderer.sent[|renderer.sent| - 1];
    outcome := main.HandleResponse(response.params, response.template);

    DevelopmentAddsInspectItem(items, p, true);
    InjectedClickCarriesId(items, i);
    InjectAppend(items, [InspectItem(p)]);
    var item := outcome.items[i];
    main.ActivateItem(item);
    var clicked := main.sent[|main.sent| - 1];
    renderer.HandleClick(clicked.id);
  }

  /** After clearRendererBindings, a click reaches only the handler registered afterwards, with params `{}`. */
  method ReregisterAfterClear(renderer: ContextMenu, id: string, stale: HandlerId, current: HandlerId)
    modifies renderer
    ensures renderer.invoked == old(renderer.invoked) + [Invocation(current, None, old(renderer.selectedElementAttributes))]
  {
    renderer.OnReceive(id, stale);
    renderer.ClearRendererBindings();
    renderer.OnReceive(id, current);
    renderer.HandleClick(Some(id));
  }

  /**
   * Two responses for a fresh template name in development mode, then clearMainBindings, a
   * fresh mainBindings with the same templates, and a third response: the second pops up the list the first prepared, unchanged; the third appends a
   * second inspect item and injects nothing new.
   */
  method PrepareAcrossClear(main: ContextMenu, name: string, p: Params, q: Params, r: Params)
    returns (first: Outcome, second: Outcome, third: Outcome)
    requires main.templates != null && main.isDevelopment
    requires name !in main.templatesCleaned && name in main.templates.lists
    modifies main, main.templates
    ensures first == second == Popup(Prepare(old(main.templates.lists[name]), true, p, true))
    ensures third == Popup(Prepare(old(main.templates.lists[name]), true, p, true) + [InspectItem(r)])
    ensures |third.items| == |old(main.templates.lists[name])| + 2
  {
    ghost var items := main.templates.lists[name];
    first := main.HandleResponse(p, Some(name));
    second := main.HandleResponse(q, Some(name));
    main.ClearMainBindings();
    main.MainBindings(main.templates, true);
    third := main.HandleResponse(r, Some(name));
    RepreparedInDevelopment(items, p, r);
  }
}
