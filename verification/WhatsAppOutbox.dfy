/** The outbox as the class that holds it; flushOutbox is cut at the await of its send. */
module WhatsAppOutboxModel {
  import opened Records
  import opened Outbox
  import opened OutboxFlush

  class WhatsAppOutbox {
    var rows: Rows
    var outboxFlushing: bool
    var waiting: Flush             // the locals of the flush that waits, while outboxFlushing
    var now: nat                   // the clock

    ghost function View(): State
      reads this
    {
      State(rows, if outboxFlushing then Some(waiting) else None, now)
    }

    /** The query that ends in ORDER BY ... LIMIT 1. */
    method Select(order: Order, ids: set<RowId>) returns (first: Option<RowId>)
      requires ids <= rows.Keys
      ensures first == First(rows, order, ids)
    {
      if ids == {} { return None; }
      FirstExists(rows, order, ids);
      hide Before;
      var id :| id in ids && IsFirst(rows, order, ids, id);
      OnlyOneIsFirst(rows, order, ids, id);
      return Some(id);
    }

    method NextOutboxOrdinal(turn: Option<MissionId>) returns (n: int)
      ensures n == NextOrdinal(rows, turn)
    {
      if turn.None? { return 0; }
      var rest := RowsOfTurn(rows, turn.value);
      if rest == {} { return 0; }
      var best :| best in rest;
      rest := rest - {best};
      while rest != {}
        invariant rest <= RowsOfTurn(rows, turn.value) && best in RowsOfTurn(rows, turn.value)
        invariant forall j :: j in RowsOfTurn(rows, turn.value) && j !in rest ==>
          rows[j].message.ordinal <= rows[best].message.ordinal
        decreases |rest|
      {
        var j :| j in rest;
        if rows[j].message.ordinal > rows[best].message.ordinal { best := j; }
        rest := rest - {j};
      }
      n := rows[best].message.ordinal + 1;
      assert IsGreatest(rows, RowsOfTurn(rows, turn.value), best);
    }

    /** enqueueText and enqueueMedia. */
    method Enqueue(id: RowId, kind: Kind, body: string, turn: Option<MissionId>, ordinal: Option<int>)
      modifies this`rows
      ensures View() == Step(old(View()), Enqueued(id, kind, body, turn, ordinal))
    {
      hide NextOrdinal;
      var n;
      if ordinal.Some? { n := ordinal.value; } else { n := NextOutboxOrdinal(turn); }
      var message := Message(kind, body, turn, n, now);
      var conflicting := set j | j in rows && SameKey(message, rows[j].message);
      assert KeyTaken(rows, message) <==> conflicting != {} by {
        if KeyTaken(rows, message) {
          var j :| j in rows && SameKey(message, rows[j].message);
          assert j in conflicting;
        }
      }
      if id !in rows && conflicting == {} {
        rows := rows[id := NewRow(message)];
      }
    }

    /** The loop over the parts of a finished turn's result. */
    method EnqueueResult(ids: seq<RowId>, parts: seq<string>, turn: MissionId)
      requires |ids| == |parts|
      modifies this`rows
      ensures View() == EnqueueParts(old(View()), ids, parts, turn)
    {
      for k := 0 to |parts|
        invariant View() == EnqueueParts(old(View()), ids[..k], parts[..k], turn)
      {
        hide EnqueueStep, KeyTaken, NextOrdinal;
        assert ids[..k + 1][..k] == ids[..k] && parts[..k + 1][..k] == parts[..k];
        Enqueue(ids[k], Text, parts[k], Some(turn), Some(k));
      }
      assert ids[..|parts|] == ids && parts[..|parts|] == parts;
    }

    /** The head of the loop, up to the send or the end of the flush. */
    method NextRound(sent: nat)
      modifies this`rows, this`outboxFlushing, this`waiting
      ensures View() == RoundStep(old(View()), sent)
    {
      var row := Select(ByAge, DueRows(rows, now));
      if sent >= FLUSH_LIMIT || row.None? {
        outboxFlushing := false;
        return;
      }
      var r := rows[row.value];
      rows := rows[row.value := r.(status := Sending, attempts := r.attempts + 1, updatedAt := now)];
      outboxFlushing, waiting := true, Flush(row.value, r.attempts + 1, sent);
    }

    method FlushOutbox(ready: bool)
      modifies this`rows, this`outboxFlushing, this`waiting
      ensures View() == Step(old(View()), FlushCalled(ready))
    {
      hide RoundStep;
      if outboxFlushing || !ready { return; }
      NextRound(0);
    }

    /** The send returned, with an id or without one. */
    method SendReturns(remote: Option<RemoteId>)
      requires outboxFlushing
      modifies this`rows, this`outboxFlushing, this`waiting
      ensures View() == Step(old(View()), SendReturned(remote))
    {
      hide RoundStep, RemoteTaken, AckDelay, ThrewStep;
      var sent := waiting.sent;
      if waiting.row in rows && rows[waiting.row].status.Sending? {
        var r := rows[waiting.row];
        var id := Correlated(r, remote);
        var taken := IsRemoteTaken(waiting.row, id);
        if taken {
          SendThrows();
          return;
        }
        rows := rows[waiting.row := SentRow(r, waiting.attempt, remote, now)];
      }
      NextRound(sent + 1);
    }

    /** Whether the unique index refuses the update. */
    method IsRemoteTaken(id: RowId, remote: Option<RemoteId>) returns (taken: bool)
      ensures taken <==> RemoteTaken(rows, id, remote)
    {
      if remote.None? { return false; }
      var others := set j | j in rows && j != id && rows[j].remote == remote;
      assert forall j :: j in rows && j != id && rows[j].remote == remote ==> j in others;
      return others != {};
    }

    method SendThrows()
      requires outboxFlushing
      modifies this`rows, this`outboxFlushing
      ensures View() == ThrewStep(old(View()))
    {
      if waiting.row in rows {
        var r := rows[waiting.row];
        var delay := FailureDelay(r.message.kind, waiting.attempt);
        rows := rows[waiting.row := r.(status := SendFailed, nextAt := now + delay, updatedAt := now)];
      }
      outboxFlushing := false;
    }

    method OnMessageAck(remote: RemoteId, ack: int)
      modifies this`rows
      ensures ack >= 1 ==> View() == Step(old(View()), Acked(remote))
      ensures ack < 0 ==> View() == Step(old(View()), NegativelyAcked(remote))
      ensures ack == 0 ==> View() == old(View())
    {
      if ack >= 1 {
        rows := map id | id in rows :: AckRow(rows[id], remote, now);
      } else if ack < 0 {
        rows := map id | id in rows :: NegativeAckRow(rows[id], remote, now);
      }
    }

    /** The rewrite of the row an echo was matched with. */
    method Acknowledge(row: Option<RowId>, remote: RemoteId, media: bool)
      requires row.Some? ==> row.value in rows
      modifies this`rows
      ensures View() == EchoStep(old(View()), row, remote, media)
    {
      if row.None? { return; }
      var taken := IsRemoteTaken(row.value, Some(remote));
      if taken { return; }
      var r := rows[row.value];
      rows := rows[row.value := r.(status := Acknowledged, remote := Some(remote), updatedAt := now,
                                   nextAt := if media then now else r.nextAt)];
    }

    method EchoText(body: string, remote: RemoteId)
      modifies this`rows
      ensures View() == Step(old(View()), TextEchoed(body, remote))
    {
      hide RemoteTaken;
      var row := Select(ByAge, EchoedTexts(rows, body));
      Acknowledge(row, remote, false);
    }

    /** Whether a row was matched; the update of a matched row throws when the id is taken. */
    method ConsumeOutboundMedia(remote: RemoteId) returns (consumed: bool)
      modifies this`rows
      ensures View() == Step(old(View()), MediaEchoed(remote))
      ensures consumed <==> EchoedMedia(old(rows), old(now)) != {}
    {
      hide RemoteTaken;
      var row := Select(ByEcho, EchoedMedia(rows, now));
      Acknowledge(row, remote, true);
      return row.Some?;
    }

    method RetryOutbox(id: RowId) returns (found: bool)
      modifies this`rows
      ensures View() == Step(old(View()), Retried(id))
      ensures found <==> id in old(rows)
    {
      found := id in rows;
      if found { rows := rows[id := rows[id].(status := ToSend, nextAt := now, updatedAt := now)]; }
    }

    method DiscardOutbox(id: RowId) returns (found: bool)
      modifies this`rows
      ensures View() == Step(old(View()), Discarded(id))
      ensures found <==> id in old(rows)
    {
      found := id in rows;
      rows := map j | j in rows && j != id :: rows[j];
    }

    /** recoverOutbox, in a new process. */
    method RecoverOutbox()
      modifies this`rows, this`outboxFlushing
      ensures View() == Step(old(View()), Restarted)
    {
      rows := map id | id in rows :: RestartRow(rows[id], now);
      outboxFlushing := false;
    }
  }
}
