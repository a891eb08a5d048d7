/**
 * The coaching request (backend/tasks/coaching.py, created by the
 * `/request-coaching/{user_id}` route of backend/app/main.py): an
 * `ai_feedbacks` row is inserted as "pending"; the background task then asks
 * the MCP server for an analysis and records the outcome on that row,
 * "completed" with the response body or "failed".
 *
 * The HTTP call is an input: the status code and the parsed JSON body
 * (None when `response.json()` raises), or an exception.
 */
module Coaching {
  import opened Wrappers
  import opened Json
  import opened Dates
  import opened Models
  import Store

  datatype McpOutcome =
    | Responded(statusCode: int, body: Option<Value>)
    | Raised

  /**
   * The row after the coaching task ran: a 200 with a JSON body completes it with
   * that body; any other status, or an exception (a body that is not JSON
   * included), fails it and keeps its data.
   */
  function Resolved(f: AIFeedback, outcome: McpOutcome): AIFeedback {
    if outcome.Responded? && outcome.statusCode == 200 && outcome.body.Some?
    then f.(status := "completed", feedbackData := outcome.body.value)
    else f.(status := "failed")
  }

  /** Where `query(AIFeedback).filter(AIFeedback.id == feedback_id).first()` finds the row (`|rows|`: none). */
  function RowIndex(rows: seq<AIFeedback>, feedbackId: int): nat {
    Store.FirstIndex((f: AIFeedback) => f.id == feedbackId, rows)
  }

  /** The table after `request_coaching(user_id, feedback_id)`. */
  function AfterCoaching(rows: seq<AIFeedback>, feedbackId: int, outcome: McpOutcome): seq<AIFeedback> {
    var k := RowIndex(rows, feedbackId);
    if k < |rows| then rows[k := Resolved(rows[k], outcome)] else rows
  }

  /** An id larger than every id in the table, as the autoincrement key hands out. */
  function NextId(rows: seq<AIFeedback>): (id: int)
    ensures forall j | 0 <= j < |rows| :: rows[j].id < id
    decreases |rows|
  {
    if rows == [] then 1
    else
      var rest := NextId(rows[..|rows| - 1]);
      var last := rows[|rows| - 1].id;
      if last < rest then rest else last + 1
  }

  /** The committed `ai_feedbacks` table. */
  class FeedbackTable {
    var rows: seq<AIFeedback>

    constructor (rows: seq<AIFeedback>)
      ensures this.rows == rows
    {
      this.rows := rows;
    }

    /** `/request-coaching/{user_id}`: insert a "pending" row and hand its id to the coaching task. */
    method Submit(userId: int, now: DateTime) returns (feedbackId: int)
      modifies this
      ensures forall j | 0 <= j < |old(rows)| :: old(rows)[j].id != feedbackId
      ensures rows == old(rows) + [AIFeedback(feedbackId, userId, now, "pending", JNull)]
    {
      feedbackId := NextId(rows);
      rows := rows + [AIFeedback(feedbackId, userId, now, "pending", JNull)];
    }

    /** `request_coaching(user_id, feedback_id)` once the MCP call has produced `outcome`. */
    method RequestCoaching(feedbackId: int, outcome: McpOutcome)
      modifies this
      ensures rows == AfterCoaching(old(rows), feedbackId, outcome)
    {
      var k := RowIndex(rows, feedbackId);
      if k < |rows| {
        var feedback := rows[k];
        if outcome.Responded? && outcome.statusCode == 200 {
          feedback := feedback.(status := "completed");
          if outcome.body.None? {
            // `response.json()` raised after the status was set: the handler marks it failed.
            feedback := feedback.(status := "failed");
          } else {
            feedback := feedback.(feedbackData := outcome.body.value);
          }
        } else {
          feedback := feedback.(status := "failed");
        }
        rows := rows[k := feedback];
      }
    }
  }

  /**
   * `request_coaching` touches at most the row with the id: when there is
   * none the table is unchanged; otherwise that row alone changes, keeping
   * its id, user and creation time, and ends "completed" with the response
   * body after a 200 with JSON, "failed" with its data kept otherwise.
   */
  lemma CoachingOutcome(rows: seq<AIFeedback>, feedbackId: int, outcome: McpOutcome)
    ensures var after := AfterCoaching(rows, feedbackId, outcome);
      && |after| == |rows|
      && ((forall j | 0 <= j < |rows| :: rows[j].id != feedbackId) ==> after == rows)
    ensures var after := AfterCoaching(rows, feedbackId, outcome);
      var k := RowIndex(rows, feedbackId);
      k < |rows| ==>
        && rows[k].id == feedbackId
        && (forall j | 0 <= j < |rows| && j != k :: after[j] == rows[j])
        && after[k].id == feedbackId && after[k].userId == rows[k].userId && after[k].createdAt == rows[k].createdAt
        && (after[k].status == "completed" || after[k].status == "failed")
    ensures var after := AfterCoaching(rows, feedbackId, outcome);
      var k := RowIndex(rows, feedbackId);
      k < |rows| && outcome.Responded? && outcome.statusCode == 200 && outcome.body.Some? ==>
        after[k].status == "completed" && after[k].feedbackData == outcome.body.value
    ensures var after := AfterCoaching(rows, feedbackId, outcome);
      var k := RowIndex(rows, feedbackId);
      k < |rows| && !(outcome.Responded? && outcome.statusCode == 200 && outcome.body.Some?) ==>
        after[k].status == "failed" && after[k].feedbackData == rows[k].feedbackData
  {
    var k := RowIndex(rows, feedbackId);
    if k == |rows| {
      assert AfterCoaching(rows, feedbackId, outcome) == rows;
    }
  }

  /** Running the coaching task on the row just submitted resolves that row and keeps every other one. */
  lemma {:induction false} SubmittedRowResolved(rows: seq<AIFeedback>, userId: int, now: DateTime, outcome: McpOutcome)
    ensures var id := NextId(rows);
      var pending := AIFeedback(id, userId, now, "pending", JNull);
      AfterCoaching(rows + [pending], id, outcome) == rows + [Resolved(pending, outcome)]
  {
    var id := NextId(rows);
    var pending := AIFeedback(id, userId, now, "pending", JNull);
    var t := rows + [pending];
    var k := RowIndex(t, id);
    assert t[|rows|] == pending;
    assert forall j | 0 <= j < |rows| :: t[j].id != id;
    assert k == |rows|;
    assert t[k := Resolved(pending, outcome)] == rows + [Resolved(pending, outcome)];
  }
}
