/**
 * Event sequences applied to the scheduler, each showing one behaviour of
 * the code as written. The first three start from any state that meets
 * their requires; the others start from a freshly initialised extension
 * with any configuration that is enabled and has an endpoint.
 */
module Scenarios {
  import opened Wrappers
  import Settings
  import opened Text
  import opened Context
  import opened Generation
  import opened Scheduler

  /** `autoGenTimer = null` after an auto-generation (index.js:761) runs even
      when a main-chat message armed a new timer during the call: that timer
      stays pending with no handle. The next main-chat message cannot cancel
      it and arms a second one, and unchecking `enabled` cancels only the
      second, so the orphan still fires later. */
  method OrphanedAutoTimer(b: Beholder, reply: Outcome, now: int) returns (orphan: nat)
    requires b.Valid() && b.CanArm() && b.awaiting == AutoCall
    modifies b
    ensures orphan == old(b.nextTimerId) && b.nextTimerId == orphan + 2
    ensures orphan in b.timers && b.timers[orphan].job == AutoGenJob
    ensures orphan + 1 !in b.timers && b.autoGenTimer == None
  {
    orphan := b.nextTimerId;
    b.OnMainChatMessage(0);
    var _ := b.CompleteGeneration(reply, now);
    b.OnMainChatMessage(0);
    b.OnEnabledChanged(false);
  }

  /** An auto timer firing during a user call arms the 5 s retry; the end
      of the user call then stops that retry, so it never runs. */
  method RetryStoppedByUserReply(b: Beholder, id: nat, chat: seq<MainMessage>, outcome: Outcome, now: int)
    returns (retry: nat, armed: Timer)
    requires b.Valid() && id in b.timers && b.timers[id].job == AutoGenJob
    requires Settings.Enabled(b.settings) && b.awaiting == UserCall
    modifies b
    ensures retry == old(b.nextTimerId) && armed == Timer(RetryJob, RetryDelay)
    ensures retry !in b.timers && id !in b.timers && b.autoGenTimer == None
  {
    b.FireTimer(id, chat, 0);
    retry := b.autoGenTimer.value;
    armed := b.timers[retry];
    var _ := b.CompleteGeneration(outcome, now);
  }

  /** Unchecking `enabled` cancels the armed auto timer and checking it
      again arms nothing: the timers are those of before the main-chat
      message, minus the one the handle held then. */
  method ReEnableArmsNothing(b: Beholder)
    requires b.Valid() && b.CanArm()
    modifies b
    ensures b.autoGenTimer == None && b.timers == Cleared(old(b.timers), old(b.autoGenTimer))
    ensures Settings.Enabled(b.settings)
  {
    b.OnMainChatMessage(0);
    b.OnEnabledChanged(false);
    b.OnEnabledChanged(true);
  }

  /** A reply that arrives after a chat switch is appended to the log of
      the chat now shown and persisted under its key; the chat the message
      was sent from keeps only the user message. */
  method LateReplyAfterChatSwitch(s: Settings.Stored, first: string, second: string,
                                  chat: seq<MainMessage>, text: string, outcome: Outcome)
    returns (firstLog: seq<Message>, secondLog: seq<Message>)
    requires Settings.CanAutoGenerate(s) && first != "" && second != "" && first != second
    requires Trim(text) != "" && Appends(Reply(outcome))
    ensures firstLog == [Message(User, Trim(text), 1)]
    ensures secondLog == [Message(Assistant, Reply(outcome).value, 2)]
  {
    var b := new Beholder(s, first, map[]);
    b.HandleUserSend(text, chat, 1);
    assert b.isGenerating && b.store[first] == [Message(User, Trim(text), 1)];
    b.OnChatChanged(second);
    assert b.assistantMessages == [];
    var _ := b.CompleteGeneration(outcome, 2);
    firstLog, secondLog := b.store[first], b.store[second];
  }

  /** A send while a call is in flight is ignored: no second user message,
      and the call in flight keeps its caller. */
  method SendWhileGenerating(s: Settings.Stored, chatId: string, chat: seq<MainMessage>, text: string, again: string)
    returns (log: seq<Message>, caller: Call)
    requires Settings.CanAutoGenerate(s) && Trim(text) != ""
    ensures log == [Message(User, Trim(text), 1)] && caller == UserCall
  {
    var b := new Beholder(s, chatId, map[]);
    b.HandleUserSend(text, chat, 1);
    b.HandleUserSend(again, chat, 2);
    log, caller := b.assistantMessages, b.awaiting;
  }

  /** A user send logs the trimmed text and starts one call whose context
      is built from that log and the user text, so by `RequestEnds` it ends
      with that text; once the reply arrives it is appended and the
      single-flight flag is released. */
  method UserSendThenReply(s: Settings.Stored, chatId: string, chat: seq<MainMessage>, text: string, outcome: Outcome)
    returns (sent: Request, log: seq<Message>, generating: bool)
    requires Settings.CanAutoGenerate(s) && Trim(text) != "" && Appends(Reply(outcome))
    ensures sent == Request(chat, [Message(User, Trim(text), 1)], Settings.MainChatDepth(s),
                            Settings.AssistantChatDepth(s), Settings.AssistantName(s), Some(Trim(text)))
    ensures log == [Message(User, Trim(text), 1), Message(Assistant, Reply(outcome).value, 2)]
    ensures !generating
  {
    var b := new Beholder(s, chatId, map[]);
    b.HandleUserSend(text, chat, 1);
    sent := b.request.value;
    var _ := b.CompleteGeneration(outcome, 2);
    log, generating := b.assistantMessages, b.isGenerating;
  }
}
