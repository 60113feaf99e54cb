/** Sequences of handler calls on one client, with what the page and the
    server observe at the end. Each is proved from the contracts of the
    client's methods alone. */
module Scenarios {
  import opened Events
  import opened Helper

  /** Events sent between a close and the next open wait in the queue, and
      nothing is transmitted before the reconnect delay has passed; the new
      socket then receives them in the order they were sent, each with the
      stamp it was queued with. */
  method FifoAcrossReconnect(c: Client, a: Event, b: Event, closedAt: int, t1: int, t2: int, reopenAt: int)
    requires c.Valid() && c.conn.Open?
    requires closedAt + ReconnectDelay <= reopenAt
    modifies c
    ensures c.Valid() && c.conn == Open && c.queue == []
    ensures c.transmitted == old(c.transmitted) + [Stamp(a, t1), Stamp(b, t2)]
  {
    c.OnClose(closedAt);
    c.Send(a, t1);
    c.Send(b, t2);
    assert c.transmitted == old(c.transmitted);
    c.Reconnect(reopenAt);
    c.OnOpen();
  }

  /** Three changes 100 ms apart collapse into one `input` event: the first
      two timers are cancelled, the one left is due 500 ms after the last
      change, and it reports the field as the last change left it. */
  method DebounceCollapses(c: Client, f1: Field, f2: Field, f3: Field, t: int)
    requires c.Valid()
    requires IsFormControl(f1.tag) && IsFormControl(f2.tag) && IsFormControl(f3.tag)
    modifies c
    ensures c.Valid() && c.timer == None
    ensures c.Log() == old(c.Log()) + [Stamp(InputEvent(f3), t + 700)]
  {
    c.OnInput(f1, t);
    c.OnInput(f2, t + 100);
    c.OnInput(f3, t + 200);
    assert c.timer == Some(Pending(t + 700, f3.ref));
    assert c.Log() == old(c.Log());
    c.FireInputTimer(f3, t + 700);
  }

  /** A change outside any form control neither sends anything nor disturbs
      a pending debounce timer. */
  method NonControlInputIgnored(c: Client, f: Field, other: Field, t: int)
    requires c.Valid()
    requires IsFormControl(f.tag) && !IsFormControl(other.tag)
    modifies c
    ensures c.Valid() && c.timer == Some(Pending(t + DebounceDelay, f.ref))
    ensures c.Log() == old(c.Log())
  {
    c.OnInput(f, t);
    c.OnInput(other, t + 10);
  }
}
