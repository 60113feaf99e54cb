# Brainstorm page helper, modelled in Dafny

The brainstorm server injects a small script into the pages it serves. The
script opens a WebSocket back to the server and sends one event for each
interaction: a click on a button or a choice element, a form submission, or
an input change after a 500 ms debounce. Pages can also send events
explicitly through `window.brainstorm.send` and `window.brainstorm.choice`.
Events sent while the socket is not open wait in a queue. The queue is
drained in order when the socket opens. A closed socket is reopened after a
fixed 1000 ms. A server message of type `reload` reloads the page.

The project models this behaviour in three modules:

- `Events` (events.dfy) holds the values. An event is a map from property
  name to value. The module has the pure decisions of the listeners: the
  timestamp stamp, the click filter and its payload, the last-key-wins
  flattening of form data, the input payload, the `choice` object with its
  spread metadata, and how an inbound message is read (the message handler
  reads and changes none of the client's state).
- `Helper` (client.dfy) holds the script's module-level state (`ws`,
  `eventQueue`, `inputTimeout`) as the fields of one `Client` object:
  - `conn`: the life of the current socket.
  - `queue`: the events waiting for the socket.
  - `transmitted`: every event handed to `ws.send`, in order.
  - `timer`: the single debounce timer slot.
  
  The open and close handlers, the reconnect, `send`, the three document
  listeners and `choice` are
  its methods. Each method states the client's whole new state. The
  invariant `Valid()` says that the queue is empty while the socket is open.
  The ghost `Log()` (transmitted, then queued) only ever grows at its end, by
  exactly the events sent.
- `Scenarios` (scenarios.dfy) holds sequences of handler calls with what they
  add up to: first-in first-out delivery across a reconnect, and the
  collapse of rapid input changes into one event.

The clock is a `now` parameter of every handler. The browser's guarantees
about when a callback can run are preconditions:
- the open handler runs only on a socket being opened;
- the close handler runs at most once per socket;
- a timer callback runs only while its timer is pending, and never before
  its deadline.

Three behaviours of the code are worth noting:
- Only `input` events are listened to, not `change` events.
- An inbound message that is not JSON, or that is the JSON literal `null`,
  makes the message listener throw. The message is not silently dropped.
  `Events.MessageReaction` reports this as `Throws`, and no state changes.
- Serialisation of outbound events is not guarded.

## Model

| member | source | states |
|---|---|---|
| `Events.Stamp` | lib/brainstorm-server/helper.js:28-29 | the sent event carries `timestamp` = the send time, whatever timestamp the caller supplied; every other property is kept |
| `Events.StampTwice` | lib/brainstorm-server/helper.js:29 | stamping an already stamped event keeps only the later stamp |
| `Events.OrNull` | lib/brainstorm-server/helper.js:50-52 | `s \|\| null`: null exactly for the empty string, the string itself otherwise |
| `Events.ClickEvent` | lib/brainstorm-server/helper.js:38-53 | no event and no preventDefault exactly when nothing matched or the match is an `A` without a truthy `data-choice`; otherwise one `click` event with exactly the keys type, text, choice, id, className, where choice is null exactly when `data-choice` is absent or empty and is its value otherwise |
| `Events.PlainLinkIgnored` | lib/brainstorm-server/helper.js:42-43 | a hyperlink with no `data-choice`, or with an empty one, is not intercepted |
| `Events.ChoiceLinkCaptured` | lib/brainstorm-server/helper.js:43-50 | a hyperlink with `data-choice="yes"` is intercepted and reports choice "yes" |
| `Events.FieldMap` | lib/brainstorm-server/helper.js:61-62 | the flattened form holds a name exactly when some FormData entry carries it and it is not `__proto__` (assigning that key on a plain object creates no own property) |
| `Events.FieldMapLastWins` | lib/brainstorm-server/helper.js:62 | a name other than `__proto__` maps to the value of the last entry with that name |
| `Events.Flatten` | lib/brainstorm-server/helper.js:60-62 | the `forEach` loop builds exactly the flattened form map |
| `Events.SubmitEvent` | lib/brainstorm-server/helper.js:64-69 | a `submit` event with exactly type, formId, formName and data; the ids are null when empty; data is the flattened form (last entry per name wins), keyed by the entry names except `__proto__` |
| `Events.SubmitExamples` | lib/brainstorm-server/helper.js:61-62 | fields name=alice, age=30 give that map; a repeated name keeps its later value; a field named `__proto__` is dropped |
| `Events.Lower` | lib/brainstorm-server/helper.js:85 | lower-casing keeps the length and lower-cases each ASCII letter |
| `Events.FormControlTags` | lib/brainstorm-server/helper.js:76 | INPUT, TEXTAREA and SELECT qualify for input capture |
| `Events.OtherTagsIgnored` | lib/brainstorm-server/helper.js:76 | BUTTON and DIV do not qualify for input capture |
| `Events.InputEvent` | lib/brainstorm-server/helper.js:80-86 | an `input` event with exactly type, name, id, value, inputType; name and id are null when empty; inputType is the `type` property, or the lower-cased tag name when that is empty |
| `Events.ChoiceEvent` | lib/brainstorm-server/helper.js:93 | keys are type, value and the metadata keys; metadata values win on a clash; type is "choice" and value the given value unless the metadata overrides them |
| `Events.ChoiceStartExample` | lib/brainstorm-server/helper.js:93 | `choice("start", {level: 1})` sends exactly type "choice", value "start", level 1 and the timestamp |
| `Helper.Client.constructor` | lib/brainstorm-server/helper.js:3-7 | the script starts with an empty queue, nothing transmitted, no debounce timer and a socket being opened |
| `Helper.Client.Send` | lib/brainstorm-server/helper.js:28-35 | the stamped event is transmitted if the socket is open (queue unchanged), else appended to the queue (nothing transmitted); `Log()` grows by exactly that event |
| `Helper.Client.OnOpen` | lib/brainstorm-server/helper.js:9-13 | the socket is open, transmitted = old transmitted ++ old queue (each queued entry once, in order, as it was queued), and the queue is empty |
| `Helper.Client.OnClose` | lib/brainstorm-server/helper.js:22-25 | one reconnect is due exactly 1000 ms after the close, independent of earlier history; queue, log and timer are kept |
| `Helper.Client.Reconnect` | lib/brainstorm-server/helper.js:6-7 | when the reconnect falls due a new socket is being opened, after any number of earlier closes; nothing else changes |
| `Events.MessageReaction` | lib/brainstorm-server/helper.js:15-20 | reload exactly when the parsed `type` is the string "reload"; throws exactly for non-JSON text or JSON null; no effect otherwise |
| `Helper.Client.OnClick` | lib/brainstorm-server/helper.js:38-54 | preventDefault exactly when the click decision yields an event, and then exactly that event, stamped, is sent; otherwise nothing changes |
| `Helper.Client.OnSubmit` | lib/brainstorm-server/helper.js:57-70 | preventDefault always, and exactly one stamped `submit` event built from the flattened form is sent |
| `Helper.Client.OnInput` | lib/brainstorm-server/helper.js:74-79 | for a form control the one timer slot is replaced by a timer due 500 ms later on that element; any other element leaves the slot as it was; nothing is sent |
| `Helper.Client.FireInputTimer` | lib/brainstorm-server/helper.js:79-87 | the due timer sends exactly one stamped `input` event read from the element at fire time, and the slot is then empty |
| `Helper.Client.Choice` | lib/brainstorm-server/helper.js:93 | exactly one stamped `choice` event with the metadata spread over type and value is sent |
| `Scenarios.FifoAcrossReconnect` | lib/brainstorm-server/helper.js:9-35 | events sent between a close and the reopen reach the new socket in send order, each with the stamp it was queued with, and the queue is then empty |
| `Scenarios.DebounceCollapses` | lib/brainstorm-server/helper.js:73-88 | three changes 100 ms apart yield exactly one `input` event, due 500 ms after the last change and carrying the last field state |
| `Scenarios.NonControlInputIgnored` | lib/brainstorm-server/helper.js:74-79 | input on a non-control neither sends nor cancels the pending timer |

## Left out

- The WebSocket object itself is not modelled: the URL, `new WebSocket`, `readyState` and `ws.send`. The socket is reduced to `Connecting`, `Open` and `Closed`, and a transmission is an entry in `transmitted`. The `CLOSING` window is not modelled: in it `readyState` is no longer open but `onclose` has not run yet, and the source queues sends made then. Delivery or loss on the wire is not modelled.
- `JSON.stringify` and `JSON.parse` are opaque. An inbound message arrives already classified (`Inbound`). Outbound events are taken to serialise; the source does not guard against a throwing `stringify`.
- The DOM is not modelled: `closest` with its selector, `textContent.trim()`, `dataset`, `FormData` and the element properties. Their results are inputs: the matched element, its trimmed text, the FormData entries and the field's properties. `matches` is modelled only as its tag-name test. File values in FormData are not modelled. Neither are form controls named `id` or `name` that shadow the form's own properties.
- `setTimeout`, `clearTimeout` and `Date.now()` become explicit `now` parameters, a reconnect deadline and one timer slot. The host's event loop and its interleavings are not modelled.
- `window.location.reload()` is returned as the `Reload` reaction; the teardown of the page that follows is not modelled. The `window.brainstorm` object is not modelled; its `send` and `choice` are `Client.Send` and `Client.Choice`.
- `Helper.Client.Send` works on event values. The source sets `timestamp` on the caller's own object, and the queued entry is that same object. Changes a caller makes to the object after sending are therefore not modelled: re-sending an object that is still queued also rewrites the stamp of its earlier queue entry; the model's queue keeps each entry's own stamp.
- `Events.Lower` lower-cases ASCII letters only. The full Unicode mapping of `toLowerCase` is not modelled; tag names are ASCII.
- Event values are limited to null, booleans, integers, strings and flat string maps. Timestamps are integers rather than JavaScript numbers. Nested metadata objects and arrays are not represented.
