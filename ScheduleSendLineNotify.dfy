/** The notification gate of src/scheduleSendLineNotify.ts: the latest plate's position
    in the reference list, the message built from it, and the rule that a message is
    sent only when it differs from the last one sent and is remembered only once the
    send has gone through. Reading the JSON files and the LINE call are inputs. */
module ScheduleSendLineNotify {
  import opened Wrappers
  import opened Decimal
  import opened Text
  import Scheduler
  import FetchLatestPlates


  /** The options the notifier is scheduled with: hours 9 to 23, every minute, a first
      run on entering the window, not aligned to the hour. */
  function NotifySchedule(): (c: Scheduler.Config)
    ensures c.startHour == 9 && c.endHour == 23 && c.intervalMs == 60000
    ensures c.immediate && !c.alignToTop
  {
    Scheduler.WithDefaults(9, 23, 1 * 60 * 1000, Some(true), Some(false))
  }

  /** The text of `notifyMsg` for the plate, its timestamp and the two `indexOf` results.
      It opens with the notice header and carries, each after its label, the plate with
      its one-based position, the timestamp, the target plate, and the count still to
      go. Nothing checks the indices: a plate missing from the list is shown at
      position 0. */
  function Message(plate: string, timestamp: string, lastIndex: int, targetIdx: int): (m: string)
    ensures |m| > 0 && m[0] == '【' && m[|m| - 1] == '個'
    ensures Contains(m, "目前最新: " + plate + " (第 " + IntToString(lastIndex + 1) + " 個)")
    ensures Contains(m, "時間: " + timestamp)
    ensures Contains(m, "目標: " + FetchLatestPlates.Target)
    ensures Contains(m, "距離目標剩餘: " + IntToString(targetIdx - lastIndex) + " 個")
  {
    var latest := "目前最新: " + plate + " (第 " + IntToString(lastIndex + 1) + " 個)";
    var time := "時間: " + timestamp;
    var target := "目標: " + FetchLatestPlates.Target;
    var remaining := "距離目標剩餘: " + IntToString(targetIdx - lastIndex) + " 個";
    var p1 := "【車牌通知】" + "\n" + latest;
    var p2 := p1 + "\n" + time;
    var p3 := p2 + "\n" + target;
    ContainsLast("【車牌通知】", "\n", latest);
    ContainsExtend(p1, "\n", time, latest);
    ContainsLast(p1, "\n", time);
    ContainsExtend(p2, "\n", target, latest);
    ContainsExtend(p2, "\n", target, time);
    ContainsLast(p2, "\n", target);
    ContainsExtend(p3, "\n", remaining, latest);
    ContainsExtend(p3, "\n", remaining, time);
    ContainsExtend(p3, "\n", remaining, target);
    ContainsLast(p3, "\n", remaining);
    p3 + "\n" + remaining
  }

  /** The message of the last record of `latestPlates`, with the two positions looked up
      in the reference list; an empty list has no last record, and the run fails there. */
  function Render(reference: seq<string>, latestPlates: seq<FetchLatestPlates.PlateRecord>): (m: Option<string>)
    ensures m.Some? <==> latestPlates != []
  {
    if latestPlates == [] then None
    else
      var lastPlate := latestPlates[|latestPlates| - 1];
      var lastIndex := IndexOf(reference, lastPlate.latest);
      var targetIdx := IndexOf(reference, FetchLatestPlates.Target);
      Some(Message(lastPlate.latest, lastPlate.timestamp, lastIndex, targetIdx))
  }

  /** What a rendered message reports: the latest record's plate and timestamp, its first
      position in the reference list, and the first position of the target. */
  lemma RenderReportsLastRecord(reference: seq<string>, latestPlates: seq<FetchLatestPlates.PlateRecord>)
    requires latestPlates != []
    ensures var last := latestPlates[|latestPlates| - 1];
      && Render(reference, latestPlates)
           == Some(Message(last.latest, last.timestamp, IndexOf(reference, last.latest),
                           IndexOf(reference, FetchLatestPlates.Target)))
      && Contains(Render(reference, latestPlates).value, last.latest)
      && Contains(Render(reference, latestPlates).value, last.timestamp)
  {
    var last := latestPlates[|latestPlates| - 1];
    var m := Render(reference, latestPlates).value;
    var pos := IntToString(IndexOf(reference, last.latest) + 1);
    ContainsHalves(m, "目前最新: " + last.latest + " (第 " + pos, " 個)");
    ContainsHalves(m, "目前最新: " + last.latest + " (第 ", pos);
    ContainsHalves(m, "目前最新: " + last.latest, " (第 ");
    ContainsHalves(m, "目前最新: ", last.latest);
    ContainsHalves(m, "時間: ", last.timestamp);
  }

  /** When both plates are in the list, the message shows the position and the count to
      go that the scraper's distance report computes. */
  lemma MessageAgreesWithDistance(reference: seq<string>, latestPlates: seq<FetchLatestPlates.PlateRecord>,
                                  position: int, remaining: int)
    requires latestPlates != []
    requires FetchLatestPlates.Distance(Some(reference), latestPlates[|latestPlates| - 1].latest)
               == Some(FetchLatestPlates.Gap(position, remaining))
    ensures var m := Render(reference, latestPlates).value;
      && Contains(m, "目前最新: " + latestPlates[|latestPlates| - 1].latest + " (第 " + IntToString(position) + " 個)")
      && Contains(m, "距離目標剩餘: " + IntToString(remaining) + " 個")
      && Contains(m, IntToString(position)) && Contains(m, IntToString(remaining))
  {
    var last := latestPlates[|latestPlates| - 1];
    var lastIndex := IndexOf(reference, last.latest);
    var targetIdx := IndexOf(reference, FetchLatestPlates.Target);
    assert position == lastIndex + 1 && remaining == targetIdx - lastIndex;
    var m := Render(reference, latestPlates).value;
    assert m == Message(last.latest, last.timestamp, lastIndex, targetIdx);
    var pos := IntToString(position);
    ContainsHalves(m, "目前最新: " + last.latest + " (第 " + pos, " 個)");
    ContainsHalves(m, "目前最新: " + last.latest + " (第 ", pos);
    ContainsHalves(m, "距離目標剩餘: " + IntToString(remaining), " 個");
    ContainsHalves(m, "距離目標剩餘: ", IntToString(remaining));
  }

  /** The stored text a message is compared with: the trimmed file, or "" without one. */
  function LastMessage(stored: Option<string>): (s: string)
    ensures stored.None? ==> s == ""
    ensures stored.Some? ==> s == Trim(stored.value)
  {
    if stored.Some? then Trim(stored.value) else ""
  }

  /** A rendered message is its own trim, so once stored it compares equal to itself. */
  lemma MessageIsTrimmed(plate: string, timestamp: string, lastIndex: int, targetIdx: int)
    ensures var m := Message(plate, timestamp, lastIndex, targetIdx); LastMessage(Some(m)) == m
  {
    var m := Message(plate, timestamp, lastIndex, targetIdx);
    TrimUnchanged(m);
  }

  /** How one run ends. */
  datatype Outcome = Failed | Suppressed | Sent | SendFailed

  /** The persisted state: `result/line_last_message.txt` (absent or its text) and the
      messages handed to LINE, in order. */
  class Notifier {
    var lastMessageFile: Option<string>
    var dispatched: seq<string>

    constructor (stored: Option<string>)
      ensures lastMessageFile == stored && dispatched == []
    {
      lastMessageFile := stored;
      dispatched := [];
    }

    /** `scheduleSendLineNotify`. `reference` and `latestPlates` are the parsed files
        (`None` when reading or parsing fails) and `sendSucceeds` is how the LINE call
        ends. A message equal to the stored one is neither sent nor written; otherwise
        it is sent, and written only when the send succeeds. */
    method Run(reference: Option<seq<string>>, latestPlates: Option<seq<FetchLatestPlates.PlateRecord>>, sendSucceeds: bool)
      returns (outcome: Outcome)
      modifies this
      ensures outcome == Failed <==> reference.None? || latestPlates.None? || latestPlates.value == []
      ensures outcome == Failed || outcome == Suppressed ==>
        lastMessageFile == old(lastMessageFile) && dispatched == old(dispatched)
      ensures outcome != Failed ==>
        var m := Render(reference.value, latestPlates.value).value;
        && (outcome == Suppressed <==> m == LastMessage(old(lastMessageFile)))
        && (outcome == Sent || outcome == SendFailed ==> dispatched == old(dispatched) + [m])
        && (outcome == Sent <==> m != LastMessage(old(lastMessageFile)) && sendSucceeds)
        && (outcome == Sent ==> lastMessageFile == Some(m))
        && (outcome == SendFailed ==> lastMessageFile == old(lastMessageFile))
    {
      if reference.None? || latestPlates.None? || latestPlates.value == [] {
        return Failed;
      }
      var notifyMsg := Render(reference.value, latestPlates.value).value;
      var lastMsg := "";
      if lastMessageFile.Some? {
        lastMsg := Trim(lastMessageFile.value);
      }
      if notifyMsg == lastMsg {
        return Suppressed;
      }
      dispatched := dispatched + [notifyMsg];
      if sendSucceeds {
        lastMessageFile := Some(notifyMsg);
        outcome := Sent;
      } else {
        outcome := SendFailed;
      }
    }
  }

  /** Idempotence: after a message has been sent and stored, the same inputs render the
      same message and the gate suppresses it. */
  lemma SecondRunIsSuppressed(reference: seq<string>, latestPlates: seq<FetchLatestPlates.PlateRecord>)
    requires latestPlates != []
    ensures var m := Render(reference, latestPlates).value; m == LastMessage(Some(m))
  {
    var lastPlate := latestPlates[|latestPlates| - 1];
    MessageIsTrimmed(lastPlate.latest, lastPlate.timestamp,
      IndexOf(reference, lastPlate.latest), IndexOf(reference, FetchLatestPlates.Target));
  }

  /** The worked example: with the list [CAT-2531, CAT-2532, CAT-2533] and CAT-2531
      observed, the message shows position 1 and 2 plates to go. */
  lemma ExampleMessage(timestamp: string)
    ensures Render(["CAT-2531", "CAT-2532", "CAT-2533"],
                   [FetchLatestPlates.PlateRecord("CAT-2531", timestamp)])
      == Some(Message("CAT-2531", timestamp, 0, 2))
    ensures IntToString(0 + 1) == "1" && IntToString(2 - 0) == "2"
  {
    var ref := ["CAT-2531", "CAT-2532", "CAT-2533"];
    assert ref[0] != FetchLatestPlates.Target by { assert ref[0][7] != FetchLatestPlates.Target[7]; }
    assert ref[1] != FetchLatestPlates.Target by { assert ref[1][7] != FetchLatestPlates.Target[7]; }
    assert IndexOf(ref, "CAT-2531") == 0;
    assert IndexOf(ref, FetchLatestPlates.Target) == 2;
    RenderReportsLastRecord(ref, [FetchLatestPlates.PlateRecord("CAT-2531", timestamp)]);
  }

  /** A plate absent from the list is still reported, at position 0, with the target's
      index plus one as the distance. */
  lemma MissingPlateStillRendered(reference: seq<string>, plate: string, timestamp: string)
    requires plate !in reference
    ensures Render(reference, [FetchLatestPlates.PlateRecord(plate, timestamp)])
      == Some(Message(plate, timestamp, -1, IndexOf(reference, FetchLatestPlates.Target)))
    ensures IntToString(-1 + 1) == "0"
  {
  }
}
