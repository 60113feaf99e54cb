/** The helper's module-level state (`ws`, `eventQueue`, `inputTimeout`) as
    one client object, with the WebSocket handlers, `send`, the three
    document listeners and `window.brainstorm.choice` as its methods (the
    message handler reads no client state: it is `Events.MessageReaction`). The
    socket is reduced to its lifecycle, the clock to `now` parameters, and
    every `ws.send` is recorded in the `transmitted` log. */
module Helper {
  import opened Events

  /** Delay before `connect` runs again after a close, in milliseconds. */
  const ReconnectDelay: int := 1000
  /** Quiet period of the input debounce, in milliseconds. */
  const DebounceDelay: int := 500

  /** The life of the current socket: being opened, open, or closed with a
      reconnect due at `retryAt`. */
  datatype Conn = Connecting | Open | Closed(retryAt: int)

  /** The single debounce timer: when it fires and which element it reads. */
  datatype Pending = Pending(deadline: int, target: nat)

  class Client {
    var conn: Conn
    var queue: seq<Event>
    var transmitted: seq<Event>
    var timer: Option<Pending>

    /** While the socket is open nothing waits in the queue: the open
        handler drains it and `send` transmits directly. */
    ghost predicate Valid()
      reads this
    {
      conn.Open? ==> queue == []
    }

    /** Every event sent so far, in the order the server receives them:
        those already on the wire, then those still waiting. */
    ghost function Log(): seq<Event>
      reads this
    {
      transmitted + queue
    }

    /** Starting from queue q0 and log t0, exactly the event e was handed
        over: on the wire if the socket is open, at the tail of the queue
        otherwise. */
    ghost predicate Dispatched(q0: seq<Event>, t0: seq<Event>, e: Event)
      reads this
    {
      if conn.Open? then queue == q0 && transmitted == t0 + [e]
      else queue == q0 + [e] && transmitted == t0
    }

    /** Loading the script: empty queue, no timer, and `connect()` opens the first socket. */
    constructor ()
      ensures Valid()
      ensures conn == Connecting && queue == [] && transmitted == [] && timer == None
    {
      conn := Connecting;
      queue := [];
      transmitted := [];
      timer := None;
    }

    /** `send`: stamp the time, then transmit if the socket is open, else queue. */
    method Send(e: Event, now: int)
      requires Valid()
      modifies this
      ensures Valid()
      ensures conn == old(conn) && timer == old(timer)
      ensures Dispatched(old(queue), old(transmitted), Stamp(e, now))
      ensures Log() == old(Log()) + [Stamp(e, now)]
    {
      var stamped := Stamp(e, now);
      if conn.Open? {
        transmitted := transmitted + [stamped];
      } else {
        queue := queue + [stamped];
      }
    }

    /** `ws.onopen`: the socket is open; every queued event goes out once, in
        queue order and as it was queued; the queue is emptied. */
    method OnOpen()
      requires Valid() && conn.Connecting?
      modifies this
      ensures Valid()
      ensures conn == Open && queue == [] && timer == old(timer)
      ensures transmitted == old(transmitted) + old(queue)
      ensures Log() == old(Log())
    {
      conn := Open;
      var i := 0;
      while i < |queue|
        invariant 0 <= i <= |queue|
        invariant conn == Open && queue == old(queue) && timer == old(timer)
        invariant transmitted == old(transmitted) + queue[..i]
      {
        transmitted := transmitted + [queue[i]];
        i := i + 1;
      }
      assert queue[..i] == queue;
      queue := [];
    }

    /** `ws.onclose`: one reconnect, always exactly ReconnectDelay after the
        close, whatever happened before; queue, log and timer are kept. */
    method OnClose(now: int)
      requires Valid() && !conn.Closed?
      modifies this
      ensures Valid()
      ensures conn == Closed(now + ReconnectDelay)
      ensures queue == old(queue) && transmitted == old(transmitted) && timer == old(timer)
    {
      conn := Closed(now + ReconnectDelay);
    }

    /** The reconnect timer runs `connect()`: a new socket is being opened.
        There is no retry limit: this is possible after every close. */
    method Reconnect(now: int)
      requires Valid() && conn.Closed? && conn.retryAt <= now
      modifies this
      ensures Valid()
      ensures conn == Connecting
      ensures queue == old(queue) && transmitted == old(transmitted) && timer == old(timer)
    {
      conn := Connecting;
    }

    /** The click listener. `target` is what `closest(...)` returned;
        `prevented` tells whether preventDefault was called. */
    method OnClick(target: Option<Element>, now: int) returns (prevented: bool)
      requires Valid()
      modifies this
      ensures Valid()
      ensures prevented <==> ClickEvent(target).Some?
      ensures conn == old(conn) && timer == old(timer)
      ensures prevented ==> Dispatched(old(queue), old(transmitted), Stamp(ClickEvent(target).value, now))
      ensures !prevented ==> queue == old(queue) && transmitted == old(transmitted)
    {
      var e := ClickEvent(target);
      if e.None? {
        return false;
      }
      prevented := true;
      Send(e.value, now);
    }

    /** The submit listener: always prevents the submission and sends one
        `submit` event whose data is the flattened form. */
    method OnSubmit(form: Form, now: int) returns (prevented: bool)
      requires Valid()
      modifies this
      ensures Valid()
      ensures prevented
      ensures conn == old(conn) && timer == old(timer)
      ensures Dispatched(old(queue), old(transmitted), Stamp(SubmitEvent(form), now))
    {
      prevented := true;
      var data := Flatten(form.entries);
      var e := map["type" := Str("submit"), "formId" := OrNull(form.id), "formName" := OrNull(form.name),
                   "data" := Fields(data)];
      assert e == SubmitEvent(form);
      Send(e, now);
    }

    /** The input listener: a form control cancels the pending timer, if
        any, and installs one firing DebounceDelay from now that reads this
        element; any other element is ignored. Nothing is sent yet. */
    method OnInput(f: Field, now: int)
      requires Valid()
      modifies this
      ensures Valid()
      ensures IsFormControl(f.tag) ==> timer == Some(Pending(now + DebounceDelay, f.ref))
      ensures !IsFormControl(f.tag) ==> timer == old(timer)
      ensures conn == old(conn) && queue == old(queue) && transmitted == old(transmitted)
    {
      if IsFormControl(f.tag) {
        timer := Some(Pending(now + DebounceDelay, f.ref));
      }
    }

    /** The debounce timer fires (never before its deadline): it sends one
        `input` event read from `live`, the state of the element it kept at
        this moment, and no timer is pending any more. */
    method FireInputTimer(live: Field, now: int)
      requires Valid() && timer.Some? && timer.value.deadline <= now && live.ref == timer.value.target
      modifies this
      ensures Valid()
      ensures timer == None && conn == old(conn)
      ensures Dispatched(old(queue), old(transmitted), Stamp(InputEvent(live), now))
      ensures Log() == old(Log()) + [Stamp(InputEvent(live), now)]
    {
      timer := None;
      Send(InputEvent(live), now);
    }

    /** `window.brainstorm.choice(value, metadata)`. */
    method Choice(value: Value, metadata: map<string, Value>, now: int)
      requires Valid()
      modifies this
      ensures Valid()
      ensures conn == old(conn) && timer == old(timer)
      ensures Dispatched(old(queue), old(transmitted), Stamp(ChoiceEvent(value, metadata), now))
    {
      Send(ChoiceEvent(value, metadata), now);
    }
  }
}
