/** Values and events of the brainstorm page helper, and the pure decisions
    its listeners take: what a click, a form submission, an input change and
    an explicit choice turn into, and how an inbound server message is read. */
module Events {

  datatype Option<T> = None | Some(value: T)

  /** The JSON-like values that event fields carry. Form data is the one
      nested value: a flat map from field name to field value. */
  datatype Value =
    | Null
    | Bool(b: bool)
    | Num(n: int)
    | Str(s: string)
    | Fields(m: map<string, string>)

  /** An outbound event: the properties of a plain JavaScript object. */
  type Event = map<string, Value>

  /** The property the helper writes on every event it sends. */
  const TimestampKey: string := "timestamp"

  /** `send` stamps the current time, overwriting whatever timestamp the
      caller supplied, and leaves every other property as it was. */
  function Stamp(e: Event, now: int): (r: Event)
    ensures r.Keys == e.Keys + {TimestampKey}
    ensures r[TimestampKey] == Num(now)
    ensures forall k :: k in e && k != TimestampKey ==> r[k] == e[k]
  {
    e[TimestampKey := Num(now)]
  }

  /** Stamping again replaces the earlier stamp: only the last send time survives. */
  lemma StampTwice(e: Event, t0: int, t1: int)
    ensures Stamp(Stamp(e, t0), t1) == Stamp(e, t1)
  {
  }

  /** JavaScript's `s || null` on a string property: the empty string is falsy. */
  function OrNull(s: string): (r: Value)
    ensures r == Null <==> s == ""
    ensures r != Null ==> r == Str(s)
  {
    if s == "" then Null else Str(s)
  }

  // ---------------------------------------------------------------- clicks

  /** The element that `closest(...)` found for a click: its tag name as the
      DOM reports it, its trimmed text, its `data-choice` attribute (None when
      absent), its id and its class string (empty when absent). */
  datatype Element = Element(tag: string, text: string, choice: Option<string>, id: string, className: string)

  /** `dataset.choice` is truthy: present and not empty. */
  predicate HasChoice(t: Element) {
    t.choice.Some? && t.choice.value != ""
  }

  /** The click listener's decision. None: the listener returns without
      calling preventDefault (no matching ancestor, or a hyperlink without a
      choice marker). Some(e): preventDefault is called and exactly the event
      e is sent. */
  function ClickEvent(target: Option<Element>): (r: Option<Event>)
    ensures r.None? <==> target.None? || (target.value.tag == "A" && !HasChoice(target.value))
    ensures r.Some? ==> r.value.Keys == {"type", "text", "choice", "id", "className"}
    ensures r.Some? ==> r.value["type"] == Str("click") && r.value["text"] == Str(target.value.text)
    ensures r.Some? ==> (r.value["choice"] == Null <==> !HasChoice(target.value))
    ensures r.Some? && HasChoice(target.value) ==> r.value["choice"] == Str(target.value.choice.value)
    ensures r.Some? ==> r.value["id"] == OrNull(target.value.id) && r.value["className"] == OrNull(target.value.className)
  {
    match target
    case None => None
    case Some(t) =>
      if t.tag == "A" && !HasChoice(t) then None
      else
        var choice := if HasChoice(t) then Str(t.choice.value) else Null;
        Some(map["type" := Str("click"), "text" := Str(t.text), "choice" := choice,
                 "id" := OrNull(t.id), "className" := OrNull(t.className)])
  }

  /** A plain hyperlink keeps its default navigation and produces nothing. */
  lemma PlainLinkIgnored(text: string, id: string, className: string)
    ensures ClickEvent(Some(Element("A", text, None, id, className))) == None
    ensures ClickEvent(Some(Element("A", text, Some(""), id, className))) == None
  {
  }

  /** A hyperlink marked with choice "yes" is intercepted and reports that choice. */
  lemma ChoiceLinkCaptured(text: string, id: string, className: string)
    ensures var r := ClickEvent(Some(Element("A", text, Some("yes"), id, className)));
            r.Some? && r.value["type"] == Str("click") && r.value["choice"] == Str("yes")
  {
  }

  // ---------------------------------------------------------------- submits

  /** A submitted form: its id and name properties and the entries FormData
      yields, in document order. */
  datatype Form = Form(id: string, name: string, entries: seq<(string, string)>)

  /** Assigning this key on a plain object sets its prototype instead of an
      own property; a string value is ignored, and in no case does the key
      appear among the object's own (serialised) properties. */
  const ProtoKey: string := "__proto__"

  /** The flat field map the submit listener builds, one assignment per
      FormData entry in order (so a later entry overwrites an earlier one);
      an entry named `__proto__` leaves no property behind. */
  function FieldMap(entries: seq<(string, string)>): (data: map<string, string>)
    ensures forall k :: k in data <==> k != ProtoKey && exists i :: 0 <= i < |entries| && entries[i].0 == k
  {
    if entries == [] then map[]
    else
      var last := entries[|entries| - 1];
      var init := FieldMap(entries[..|entries| - 1]);
      if last.0 == ProtoKey then init else init[last.0 := last.1]
  }

  /** Last key wins: the value recorded for a name is the one of the last
      entry carrying that name. */
  lemma {:induction false} FieldMapLastWins(entries: seq<(string, string)>, i: int)
    requires 0 <= i < |entries| && entries[i].0 != ProtoKey
    requires forall j :: i < j < |entries| ==> entries[j].0 != entries[i].0
    ensures entries[i].0 in FieldMap(entries) && FieldMap(entries)[entries[i].0] == entries[i].1
  {
    if i < |entries| - 1 {
      var init := entries[..|entries| - 1];
      FieldMapLastWins(init, i);
      assert entries[|entries| - 1].0 != entries[i].0;
    }
  }

  /** The `formData.forEach` loop of the submit listener. */
  method Flatten(entries: seq<(string, string)>) returns (data: map<string, string>)
    ensures data == FieldMap(entries)
  {
    data := map[];
    var i := 0;
    while i < |entries|
      invariant 0 <= i <= |entries|
      invariant data == FieldMap(entries[..i])
    {
      assert entries[..i + 1][..i] == entries[..i];
      if entries[i].0 != ProtoKey {
        data := data[entries[i].0 := entries[i].1];
      }
      i := i + 1;
    }
    assert entries[..i] == entries;
  }

  /** The event a form submission sends: its data holds, for every field
      name other than `__proto__`, the value of the last entry with it. */
  function SubmitEvent(form: Form): (r: Event)
    ensures r.Keys == {"type", "formId", "formName", "data"}
    ensures r["type"] == Str("submit")
    ensures r["formId"] == OrNull(form.id) && r["formName"] == OrNull(form.name)
    ensures r["data"] == Fields(FieldMap(form.entries))
    ensures r["data"].m.Keys == (set i | 0 <= i < |form.entries| :: form.entries[i].0) - {ProtoKey}
  {
    var data := FieldMap(form.entries);
    assert data.Keys == (set i | 0 <= i < |form.entries| :: form.entries[i].0) - {ProtoKey};
    map["type" := Str("submit"), "formId" := OrNull(form.id), "formName" := OrNull(form.name), "data" := Fields(data)]
  }

  /** Fields {name: "alice", age: "30"} produce exactly that data map, a
      repeated name keeps its later value, and a field named `__proto__`
      is not sent. */
  lemma SubmitExamples()
    ensures FieldMap([("name", "alice"), ("age", "30")]) == map["name" := "alice", "age" := "30"]
    ensures FieldMap([("pick", "a"), ("pick", "b")]) == map["pick" := "b"]
    ensures FieldMap([(ProtoKey, "x"), ("age", "30")]) == map["age" := "30"]
  {
  }

  // ---------------------------------------------------------------- inputs

  /** A form control as the input listener sees it: an identity (the element
      reference the debounce callback keeps), its tag name, its `type`
      property, and its name, id and current value. */
  datatype Field = Field(ref: nat, tag: string, typeProp: string, name: string, id: string, value: string)

  function LowerChar(c: char): char {
    if 'A' <= c <= 'Z' then (c as int + 32) as char else c
  }

  /** ASCII lower-casing, as `toLowerCase()` acts on tag names. */
  function Lower(s: string): (r: string)
    ensures |r| == |s|
    ensures forall i :: 0 <= i < |s| ==> r[i] == LowerChar(s[i])
  {
    if s == [] then [] else [LowerChar(s[0])] + Lower(s[1..])
  }

  /** `matches('input, textarea, select')`: HTML type selectors compare tag
      names without regard to ASCII case. */
  predicate IsFormControl(tag: string) {
    Lower(tag) in {"input", "textarea", "select"}
  }

  /** The upper-case tag names HTML reports for the three controls qualify. */
  lemma FormControlTags()
    ensures IsFormControl("INPUT") && IsFormControl("TEXTAREA") && IsFormControl("SELECT")
  {
    var i, t, s := Lower("INPUT"), Lower("TEXTAREA"), Lower("SELECT");
    assert i == "input" by { assert i[0] == 'i' && i[1] == 'n' && i[2] == 'p' && i[3] == 'u' && i[4] == 't'; }
    assert s == "select" by { assert s[0] == 's' && s[1] == 'e' && s[2] == 'l' && s[3] == 'e' && s[4] == 'c' && s[5] == 't'; }
    assert t == "textarea" by {
      assert t[0] == 't' && t[1] == 'e' && t[2] == 'x' && t[3] == 't';
      assert t[4] == 'a' && t[5] == 'r' && t[6] == 'e' && t[7] == 'a';
    }
  }

  /** A button or a div is not a form control. */
  lemma OtherTagsIgnored()
    ensures !IsFormControl("BUTTON") && !IsFormControl("DIV")
  {
  }

  /** The event the debounce callback sends, read from the element when the
      timer fires. */
  function InputEvent(f: Field): (r: Event)
    ensures r.Keys == {"type", "name", "id", "value", "inputType"}
    ensures r["type"] == Str("input") && r["value"] == Str(f.value)
    ensures r["name"] == OrNull(f.name) && r["id"] == OrNull(f.id)
    ensures f.typeProp != "" ==> r["inputType"] == Str(f.typeProp)
    ensures f.typeProp == "" ==> r["inputType"].Str? && |r["inputType"].s| == |f.tag|
                                 && forall i :: 0 <= i < |f.tag| ==> r["inputType"].s[i] == LowerChar(f.tag[i])
  {
    map["type" := Str("input"), "name" := OrNull(f.name), "id" := OrNull(f.id), "value" := Str(f.value),
        "inputType" := Str(if f.typeProp != "" then f.typeProp else Lower(f.tag))]
  }

  // ---------------------------------------------------------------- choice

  /** `{ type: 'choice', value, ...metadata }`: the metadata is spread last,
      so its keys win over `type` and `value`. */
  function ChoiceEvent(value: Value, metadata: map<string, Value>): (r: Event)
    ensures r.Keys == {"type", "value"} + metadata.Keys
    ensures forall k :: k in metadata ==> r[k] == metadata[k]
    ensures "type" !in metadata ==> r["type"] == Str("choice")
    ensures "value" !in metadata ==> r["value"] == value
  {
    map["type" := Str("choice"), "value" := value] + metadata
  }

  /** `choice("start", {level: 1})` sends {type: "choice", value: "start", level: 1, timestamp: now}. */
  lemma ChoiceStartExample(now: int)
    ensures Stamp(ChoiceEvent(Str("start"), map["level" := Num(1)]), now)
         == map["type" := Str("choice"), "value" := Str("start"), "level" := Num(1), TimestampKey := Num(now)]
  {
  }

  // ---------------------------------------------------------------- inbound

  /** An inbound message after `JSON.parse`: text that is not JSON, the JSON
      literal null, or any other JSON value with its `type` property (None
      when it has none). */
  datatype Inbound = Malformed | JsonNull | Parsed(typeField: Option<Value>)

  /** What the message listener does: reload the page, nothing, or throw out
      of the listener (a parse error, or reading `type` of null). */
  datatype Reaction = Reload | NoEffect | Throws

  /** The message listener: only a message whose `type` is the string
      "reload" reloads the page; unparsable text and the JSON literal null
      make the listener throw; nothing else has any effect. The listener
      touches none of the client's state. */
  function MessageReaction(msg: Inbound): (r: Reaction)
    ensures r == Reload <==> msg == Parsed(Some(Str("reload")))
    ensures r == Throws <==> msg.Malformed? || msg.JsonNull?
    ensures r == NoEffect <==> msg.Parsed? && msg.typeField != Some(Str("reload"))
  {
    match msg
    case Malformed => Throws
    case JsonNull => Throws
    case Parsed(t) => if t == Some(Str("reload")) then Reload else NoEffect
  }
}
