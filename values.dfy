/** Values exchanged between the two processes and stored by the context-menu object. */
module Values {

  datatype Option<+T> = None | Some(value: T)

  /** Attribute naming the menu template of an element (default option, lib/index.js:15). */
  const TemplateAttributeName: string := "cm-template"

  /** Marker that makes an attribute part of the payload (default option, lib/index.js:16). */
  const PayloadAttributeName: string := "cm-payload"

  /** Label of the item appended in development mode. */
  const InspectLabel: string := "Inspect element"

  /** One DOM attribute, as a (name, value) pair. */
  type Attr = (string, string)

  /** The element under the cursor, seen only through its attribute list (in document order). */
  type Element = seq<Attr>

  /** Electron's context-menu params: the handler reads x and y, the rest travels unchanged. */
  datatype Params = Params(x: int, y: int, rest: map<string, string>)

  /** A callback registered by application code, identified opaquely. */
  type HandlerId = nat

  /** What a menu item's `click` does. */
  datatype Action =
    | UserClick(handler: HandlerId)      // a click the application wrote into its template
    | InspectAt(x: int, y: int)          // the development-mode inspector
    | SendClicked(id: Option<string>)    // the injected action: send a Clicked message

  /** A template entry; `None` stands for an absent (undefined) property. */
  datatype MenuItem = MenuItem(id: Option<string>, labelText: Option<string>, click: Option<Action>)

  /** The three IPC messages of the protocol. */
  datatype Message =
    | Request(params: Params)
    | Response(params: Params, template: Option<string>)
    | Clicked(id: Option<string>)

  /**
   * One call of a renderer handler with its argument `{params, payload}`; `params == None`
   * is the empty object `{}` that the fields hold before any request or after clearing.
   */
  datatype Invocation = Invocation(handler: HandlerId, params: Option<Params>, payload: map<string, string>)

  /** What the main-side response handler ends with. */
  datatype Outcome =
    | Popup(items: seq<MenuItem>)   // Menu.buildFromTemplate(items).popup(window)
    | PopupUndefined                // buildFromTemplate is handed `undefined`
    | TypeError                     // the handler throws before reaching the popup
}
