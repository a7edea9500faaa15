/**
 * What the renderer-side request handler extracts from the element under the cursor:
 * the template name it replies with and the payload map it keeps for a later click.
 */
module RendererSpec {
  import opened Values
  import opened JsStrings

  /** `element.getAttribute(name)`: the value of the first attribute with that name, or null. */
  function GetAttribute(e: Element, name: string): (r: Option<string>)
    ensures r.None? <==> forall i :: 0 <= i < |e| ==> e[i].0 != name
    ensures r.Some? ==> exists i :: 0 <= i < |e| && e[i] == (name, r.value) &&
                          forall j :: 0 <= j < i ==> e[j].0 != name
  {
    if e == [] then None
    else if e[0].0 == name then Some(e[0].1)
    else
      var r := GetAttribute(e[1..], name);
      assert r.Some? ==> exists i :: 0 <= i < |e[1..]| && e[1..][i] == (name, r.value) &&
                          forall j :: 0 <= j < i ==> e[1..][j].0 != name;
      r
  }

  /**
   * The template name sent back in the response: the template attribute's value when the
   * element exists and the value is neither null nor empty, and null otherwise.
   */
  function TemplateOf(element: Option<Element>): (r: Option<string>)
    ensures r.Some? ==> element.Some? && r.value != "" &&
                        exists i :: 0 <= i < |element.value| && element.value[i] == (TemplateAttributeName, r.value)
    ensures r.Some? ==> r == GetAttribute(element.value, TemplateAttributeName)
    ensures r.None? <==> element.None? ||
                         (forall i :: 0 <= i < |element.value| ==> element.value[i].0 != TemplateAttributeName) ||
                         GetAttribute(element.value, TemplateAttributeName) == Some("")
  {
    if element.None? then None
    else
      var t := GetAttribute(element.value, TemplateAttributeName);
      if t.Some? && t.value != "" then t else None
  }

  /** An attribute belongs to the payload when its name contains the payload marker anywhere. */
  predicate IsPayloadName(name: string) {
    Contains(name, PayloadAttributeName)
  }

  /** The key an attribute is stored under: its name with the first "cm-payload-" removed. */
  function PayloadKey(name: string): string {
    ReplaceFirst(name, PayloadAttributeName + "-", "")
  }

  /**
   * The payload map after the attribute loop has looked at all of `attrs`, in order; a later
   * attribute overwrites an earlier one stored under the same key.
   */
  function PayloadMap(attrs: seq<Attr>): (r: map<string, string>)
    ensures |r| <= |attrs|
  {
    if attrs == [] then map[]
    else
      var m := PayloadMap(attrs[..|attrs| - 1]);
      var a := attrs[|attrs| - 1];
      if IsPayloadName(a.0) then m[PayloadKey(a.0) := a.1] else m
  }

  /** The map's keys are exactly the stripped names of the payload attributes. */
  lemma {:induction false} PayloadMapKeys(attrs: seq<Attr>, k: string)
    ensures k in PayloadMap(attrs) <==>
            exists i :: 0 <= i < |attrs| && IsPayloadName(attrs[i].0) && PayloadKey(attrs[i].0) == k
  {
    if attrs != [] {
      var init := attrs[..|attrs| - 1];
      PayloadMapKeys(init, k);
      assert forall i :: 0 <= i < |init| ==> init[i] == attrs[i];
      if k in PayloadMap(attrs) && k in PayloadMap(init) {
        var i :| 0 <= i < |init| && IsPayloadName(init[i].0) && PayloadKey(init[i].0) == k;
        assert attrs[i] == init[i];
      }
    }
  }

  /** Each key holds the value of the last payload attribute stripped to it. */
  lemma {:induction false} PayloadMapLastWins(attrs: seq<Attr>, i: nat)
    requires i < |attrs| && IsPayloadName(attrs[i].0)
    requires forall j :: i < j < |attrs| && IsPayloadName(attrs[j].0) ==> PayloadKey(attrs[j].0) != PayloadKey(attrs[i].0)
    ensures PayloadKey(attrs[i].0) in PayloadMap(attrs)
    ensures PayloadMap(attrs)[PayloadKey(attrs[i].0)] == attrs[i].1
  {
    var init := attrs[..|attrs| - 1];
    if i < |attrs| - 1 {
      assert forall j :: 0 <= j < |init| ==> init[j] == attrs[j];
      PayloadMapLastWins(init, i);
    }
  }

  /** An attribute named "cm-payload-" + k is stored under k. */
  lemma PrefixedPayloadKey(k: string)
    ensures IsPayloadName(PayloadAttributeName + "-" + k)
    ensures PayloadKey(PayloadAttributeName + "-" + k) == k
  {
  }

  /** Any name with the payload marker somewhere inside it, not only at the start, is a payload attribute. */
  lemma MarkerInside(before: string, after: string)
    ensures IsPayloadName(before + PayloadAttributeName + after)
  {
    var name := before + PayloadAttributeName + after;
    assert name[|before|..|before| + |PayloadAttributeName|] == PayloadAttributeName;
    assert OccursAt(name, PayloadAttributeName, |before|);
  }

  /**
   * The marker need not be a prefix: "data-cm-payload-id" is a payload attribute stored under
   * "data-id", and "cm-payload" alone is stored under its whole name.
   */
  lemma MarkerAnywhere()
    ensures IsPayloadName("data-cm-payload-id") && PayloadKey("data-cm-payload-id") == "data-id"
    ensures IsPayloadName("cm-payload") && PayloadKey("cm-payload") == "cm-payload"
  {
    var s := "data-cm-payload-id";
    assert OccursAt(s, PayloadAttributeName, 5);
    assert OccursAt(s, PayloadAttributeName + "-", 5);
    forall j: nat | j < 5 ensures !OccursAt(s, PayloadAttributeName + "-", j) {
      assert s[j] != 'c';
      assert s[j..j + 11][0] == s[j];
    }
    assert OccursAt("cm-payload", PayloadAttributeName, 0);
    assert forall j: nat :: !OccursAt("cm-payload", PayloadAttributeName + "-", j);
  }
}
