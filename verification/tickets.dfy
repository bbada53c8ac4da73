/**
  The demo ticket store of the customer-service example
  (examples/customer_service_agent/tools/ticket_management.py): a module-level
  dictionary from ticket id to ticket, written by `create_ticket` and
  `update_ticket`. Keyword arguments are JSON values (`JNull` when absent);
  the clock and the uuid are inputs.
 */
module Tickets {
  import opened Wrappers
  import opened PyStr
  import opened Json

  /** The keyword arguments `create_ticket` reads. */
  datatype TicketRequest = TicketRequest(
    customerName: Json, customerEmail: Json, issueType: Json, priority: Json,
    subject: Json, description: Json, orderNumber: Json, productName: Json)

  /**
    One entry of a ticket's `updates` list. The entry written at creation has
    no `assigned_to` and no `resolution_notes` key, hence the `Option`s.
   */
  datatype TicketUpdate = TicketUpdate(timestamp: string, message: Json, status: Json,
                                       assignedTo: Option<Json>, resolutionNotes: Option<Json>)

  datatype Ticket = Ticket(ticketId: string, createdAt: string, status: Json, request: TicketRequest,
                           updates: seq<TicketUpdate>)

  /** The successful reply of `create_ticket` with its `ticket_details`. */
  datatype Created = Created(ticketId: string, message: string, status: string, priority: Json,
                             issueType: Json, subject: Json, estimatedResponseTime: string)

  datatype UpdateReply =
    | Updated(ticketId: string, message: string, newStatus: Json, updateMessage: Json, lastUpdated: string)
    | TicketNotFound(error: string, message: string)
    | UpdateFailed(error: string)

  const Open := JStr("open")

  function UpperChar(c: char): char {
    if 'a' <= c <= 'z' then (c as int - 32) as char else c
  }

  /** `f"TKT-{day}-{str(uuid)[:8].upper()}"`, with `day` the `%Y%m%d` date. */
  function TicketId(day: string, uuid: string): (id: string)
    ensures |id| == 5 + |day| + Min(8, |uuid|)
    ensures "TKT-" + day + "-" <= id
  {
    var short := SliceTo(uuid, 8);
    "TKT-" + day + "-" + seq(|short|, i requires 0 <= i < |short| => UpperChar(short[i]))
  }

  /** `"2-4 hours" if priority in ["high", "urgent"] else "24 hours"`. */
  function ResponseTime(priority: Json): (t: string)
    ensures t == "2-4 hours" <==> priority == JStr("high") || priority == JStr("urgent")
    ensures t == "24 hours" <==> !(priority == JStr("high") || priority == JStr("urgent"))
  {
    if priority == JStr("high") || priority == JStr("urgent") then "2-4 hours" else "24 hours"
  }

  /** The record `create_ticket` stores. */
  function NewTicket(id: string, req: TicketRequest, now: string): (t: Ticket)
    ensures t.ticketId == id && t.status == Open && t.request == req
    ensures |t.updates| == 1 && t.updates[0].status == Open
    ensures t.updates[0].assignedTo.None? && t.updates[0].resolutionNotes.None?
  {
    Ticket(id, now, Open, req, [TicketUpdate(now, JStr("Ticket created: " + Render(req.description)), Open, None, None)])
  }

  /** The ticket after `update_ticket`: the new status and one more update; the earlier updates stay as they were. */
  function WithUpdate(t: Ticket, status: Json, message: Json, assignedTo: Json, notes: Json, now: string): (t': Ticket)
    ensures t'.ticketId == t.ticketId && t'.createdAt == t.createdAt && t'.request == t.request
    ensures t'.status == status
    ensures |t'.updates| == |t.updates| + 1 && t'.updates[..|t.updates|] == t.updates
    ensures t'.updates[|t.updates|] == TicketUpdate(now, message, status, Some(assignedTo), Some(notes))
  {
    t.(status := status, updates := t.updates + [TicketUpdate(now, message, status, Some(assignedTo), Some(notes))])
  }

  /** A chain of updates keeps the creation entry first and only ever appends. */
  lemma {:induction false} UpdatesOnlyAppend(t: Ticket, steps: seq<(Json, Json)>, now: string)
    ensures var t' := Replayed(t, steps, now);
      && |t'.updates| == |t.updates| + |steps| && t'.updates[..|t.updates|] == t.updates
      && (steps != [] ==> t'.status == steps[|steps| - 1].0)
    decreases |steps|
  {
    if steps != [] {
      UpdatesOnlyAppend(t, steps[..|steps| - 1], now);
    }
  }

  /** `steps` (status, message) applied in order, as repeated `update_ticket` calls would. */
  function Replayed(t: Ticket, steps: seq<(Json, Json)>, now: string): Ticket
    decreases |steps|
  {
    if steps == [] then t
    else
      var last := steps[|steps| - 1];
      WithUpdate(Replayed(t, steps[..|steps| - 1], now), last.0, last.1, JNull, JNull, now)
  }

  /** The module-level `ticket_database`. */
  class TicketDatabase {
    var tickets: map<string, Ticket>

    constructor()
      ensures tickets == map[]
    {
      tickets := map[];
    }

    /** `create_ticket`: the new ticket is stored under its id (replacing any ticket with the same id). */
    method CreateTicket(req: TicketRequest, day: string, uuid: string, now: string) returns (r: Created)
      modifies this
      ensures r.ticketId == TicketId(day, uuid)
      ensures tickets == old(tickets)[r.ticketId := NewTicket(r.ticketId, req, now)]
      ensures r.status == "open" && r.priority == req.priority && r.issueType == req.issueType && r.subject == req.subject
      ensures r.estimatedResponseTime == ResponseTime(req.priority)
      ensures r.message == "Support ticket " + r.ticketId + " has been created successfully."
    {
      var id := TicketId(day, uuid);
      tickets := tickets[id := NewTicket(id, req, now)];
      r := Created(id, "Support ticket " + id + " has been created successfully.", "open",
                   req.priority, req.issueType, req.subject, ResponseTime(req.priority));
    }

    /**
      `update_ticket`: an unknown id changes nothing; a known one gets the new
      status and one more update, and no other ticket changes. A list or dict
      id cannot be looked up and is reported as a failure.
     */
    method UpdateTicket(ticketId: Json, status: Json, updateMessage: Json, assignedTo: Json, notes: Json, now: string)
      returns (r: UpdateReply)
      modifies this
      ensures (ticketId.JStr? && ticketId.s in old(tickets)) <==> r.Updated?
      ensures !r.Updated? ==> tickets == old(tickets)
      ensures r.TicketNotFound? ==> r.error == "Ticket not found"
      ensures r.UpdateFailed? <==> ticketId.JList? || ticketId.JObject?
      ensures r.Updated? ==>
        && r.ticketId == ticketId.s && r.newStatus == status && r.updateMessage == updateMessage
        && tickets == old(tickets)[ticketId.s := WithUpdate(old(tickets)[ticketId.s], status, updateMessage, assignedTo, notes, now)]
    {
      if ticketId.JList? || ticketId.JObject? {
        return UpdateFailed("Failed to update ticket: unhashable type: '" + (if ticketId.JList? then "list" else "dict") + "'");
      }
      if !(ticketId.JStr? && ticketId.s in tickets) {
        return TicketNotFound("Ticket not found", "Ticket " + Render(ticketId) + " was not found in our system.");
      }
      var id := ticketId.s;
      tickets := tickets[id := WithUpdate(tickets[id], status, updateMessage, assignedTo, notes, now)];
      r := Updated(id, "Ticket " + id + " has been updated successfully.", status, updateMessage, now);
    }
  }
}
