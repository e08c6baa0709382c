/**
 * The generation scheduler: the module-level state of the extension
 * (`isGenerating`, `abortController`, `autoGenTimer`, `assistantMessages`
 * and the settings) and the event handlers that drive it.
 *
 * Each `await generate_response(...)` suspends its caller, so it is split in
 * two steps: `GenerateBegin`, which runs the guards and starts the call,
 * and `CompleteGeneration`, which receives the call's outcome and resumes
 * whichever caller (`awaiting`) is waiting for it. Between the two, any
 * other event may happen.
 *
 * Browser timers are modelled as the map `timers` of pending timers, keyed
 * by the ids `setTimeout` hands out. `autoGenTimer` is the JavaScript
 * variable that holds one such id; it may still hold the id of a timer that
 * has fired, and a pending timer may be held by no variable at all.
 */
module Scheduler {
  import opened Wrappers
  import opened Text
  import Settings
  import opened Context
  import opened Generation

  /** What a pending timer runs: the auto-generation callback, or the 5 s
      retry that calls `start_auto_gen_timer` again. */
  datatype Job = AutoGenJob | RetryJob

  datatype Timer = Timer(job: Job, delay: int)

  /** The caller waiting for the generation call in flight, if any. */
  datatype Call = NoCall | UserCall | RegenerateCall | AutoCall

  /** The inputs `build_context` reads when a call starts; the request's
      user message is `ContextText` of them. */
  datatype Request = Request(chat: seq<MainMessage>, log: seq<Message>, mainDepth: int,
                             assistantDepth: int, nameSetting: string, userMessage: Option<string>)
  {
    function ContextText(): string {
      BuildContext(chat, log, mainDepth, assistantDepth, nameSetting, userMessage)
    }
  }

  /** The context sent for a request with a non-empty user message ends
      with that message behind `User's new message: `, and one without ends
      with the auto-commentary request. */
  lemma RequestEnds(r: Request)
    ensures HasUserText(r.userMessage) ==> EndsWith(r.ContextText(), UserPrefix + r.userMessage.value)
    ensures !HasUserText(r.userMessage) ==> EndsWith(r.ContextText(), AutoRequest)
  {
    ContextEnds(r.chat, r.log, r.mainDepth, r.assistantDepth, r.nameSetting, r.userMessage);
  }

  /** `context.chatId || 'default'`, with `""` for a missing id. */
  function ChatKey(chatId: string): string {
    OrDefault(chatId, "default")
  }

  /** The pending timers after `stop_auto_gen_timer` cleared `handle`. */
  function Cleared(timers: map<nat, Timer>, handle: Option<nat>): (r: map<nat, Timer>)
    ensures r.Keys <= timers.Keys
    ensures forall k :: k in r ==> r[k] == timers[k]
    ensures handle.Some? ==> handle.value !in r && r.Keys == timers.Keys - {handle.value}
    ensures handle.None? ==> r == timers
  {
    if handle.Some? then timers - {handle.value} else timers
  }

  class Beholder {
    var settings: Settings.Stored
    /** The host's current chat id. */
    var chatId: string
    /** The persisted conversations: chat key to message list. */
    var store: map<string, seq<Message>>
    var assistantMessages: seq<Message>
    var isGenerating: bool
    var hasAbortController: bool
    var autoGenTimer: Option<nat>
    var timers: map<nat, Timer>
    var nextTimerId: nat
    var awaiting: Call
    /** What the latest call was built from. */
    var request: Option<Request>

    /** The state invariant: an abort controller exists exactly while a call
        is in flight, exactly one caller awaits each call in flight, timer
        ids are positive and below the next id, and the current chat's
        stored list is the log whenever one is stored. */
    ghost predicate Valid() reads this {
      && hasAbortController == isGenerating
      && (isGenerating <==> awaiting != NoCall)
      && (isGenerating ==> request.Some?)
      && nextTimerId > 0
      && (forall id :: id in timers ==> 0 < id < nextTimerId)
      && (autoGenTimer.Some? ==> 0 < autoGenTimer.value < nextTimerId)
      && (ChatKey(chatId) in store ==> store[ChatKey(chatId)] == assistantMessages)
    }

    /** The state as `init` leaves it: the settings and the current chat's
        messages are loaded, nothing is in flight and no timer is armed. */
    constructor (stored: Settings.Stored, chat: string, persisted: map<string, seq<Message>>)
      ensures Valid()
      ensures settings == stored && chatId == chat && store == persisted
      ensures assistantMessages == if ChatKey(chat) in persisted then persisted[ChatKey(chat)] else []
      ensures !isGenerating && awaiting == NoCall && request == None
      ensures autoGenTimer == None && timers == map[] && nextTimerId == 1
    {
      settings := stored;
      chatId := chat;
      store := persisted;
      assistantMessages := if ChatKey(chat) in persisted then persisted[ChatKey(chat)] else [];
      isGenerating := false;
      hasAbortController := false;
      autoGenTimer := None;
      timers := map[];
      nextTimerId := 1;
      awaiting := NoCall;
      request := None;
    }

    /** Both guards of `start_auto_gen_timer`. */
    predicate CanArm() reads this {
      Settings.CanAutoGenerate(settings)
    }

    /** The delay the auto-generation timer is armed with for the draw
        `choice`. */
    function NextDelay(choice: nat): int reads this {
      AutoGenDelay(Settings.MinWait(settings), Settings.MaxWait(settings), choice)
    }

    /** The request a call started now would be built from. */
    function RequestFor(chat: seq<MainMessage>, userMessage: Option<string>): Request reads this {
      Request(chat, assistantMessages, Settings.MainChatDepth(settings),
              Settings.AssistantChatDepth(settings), Settings.AssistantName(settings), userMessage)
    }

    // ---------------------------------------------------------------- timers

    /** `setTimeout`: a fresh id for a newly pending timer. */
    method SetTimeout(t: Timer) returns (id: nat)
      requires Valid()
      modifies this`timers, this`nextTimerId
      ensures Valid()
      ensures old(nextTimerId) !in old(timers)
      ensures id == old(nextTimerId) && nextTimerId == id + 1 && timers == old(timers)[id := t]
    {
      id := nextTimerId;
      timers := timers[id := t];
      nextTimerId := nextTimerId + 1;
    }

    /** `stop_auto_gen_timer`: cancels the timer the handle holds, if any,
        and forgets the handle. */
    method StopAutoGenTimer()
      requires Valid()
      modifies this`timers, this`autoGenTimer
      ensures Valid()
      ensures autoGenTimer == None && timers == Cleared(old(timers), old(autoGenTimer))
    {
      if autoGenTimer.Some? {
        timers := timers - {autoGenTimer.value};
        autoGenTimer := None;
      }
    }

    /** `start_auto_gen_timer`: when enabled and configured, replaces any
        armed timer by exactly one new auto-generation timer whose delay
        lies in [min_wait, max(max_wait, min_wait + 10 s)) (see
        `AutoGenDelay`); otherwise does nothing. */
    method StartAutoGenTimer(choice: nat)
      requires Valid()
      modifies this`timers, this`autoGenTimer, this`nextTimerId
      ensures Valid()
      ensures !CanArm() ==> unchanged(this)
      ensures CanArm() ==>
        && autoGenTimer == Some(old(nextTimerId)) && nextTimerId == old(nextTimerId) + 1
        && old(nextTimerId) !in Cleared(old(timers), old(autoGenTimer))
        && timers == Cleared(old(timers), old(autoGenTimer))[old(nextTimerId) := Timer(AutoGenJob, NextDelay(choice))]
    {
      if !Settings.Enabled(settings) { return; }
      if Settings.EndpointUrl(settings) == "" { return; }
      StopAutoGenTimer();
      var delay := NextDelay(choice);
      var id := SetTimeout(Timer(AutoGenJob, delay));
      autoGenTimer := Some(id);
    }

    // ------------------------------------------------------------ generation

    /** The synchronous part of `generate_response`: with no endpoint, or
        with a call already in flight, nothing changes and the result is
        `null`; otherwise the call starts with the context built from the
        current chat and log, and `caller` is the one that awaits it. */
    method GenerateBegin(chat: seq<MainMessage>, userMessage: Option<string>, caller: Call)
      returns (started: bool)
      requires Valid() && caller != NoCall
      modifies this`isGenerating, this`hasAbortController, this`awaiting, this`request
      ensures Valid()
      ensures started <==> Settings.EndpointUrl(settings) != "" && !old(isGenerating)
      ensures started ==> isGenerating && awaiting == caller && request == Some(RequestFor(chat, userMessage))
      ensures !started ==> unchanged(this)
    {
      if Settings.EndpointUrl(settings) == "" { return false; }
      if isGenerating { return false; }
      request := Some(RequestFor(chat, userMessage));
      isGenerating, hasAbortController, awaiting := true, true, caller;
      started := true;
    }

    /** `add_message`: appends to the log and persists it under the current
        chat's key. */
    method AddMessage(role: Role, content: string, now: int)
      requires Valid()
      modifies this`assistantMessages, this`store
      ensures Valid()
      ensures assistantMessages == old(assistantMessages) + [Message(role, content, now)]
      ensures store == old(store)[ChatKey(chatId) := assistantMessages]
    {
      assistantMessages := assistantMessages + [Message(role, content, now)];
      store := store[ChatKey(chatId) := assistantMessages];
    }

    /** The `finally` block of `generate_response`; gives back the caller
        that awaited the call. */
    method EndCall() returns (caller: Call)
      requires Valid()
      modifies this`isGenerating, this`hasAbortController, this`awaiting
      ensures Valid()
      ensures caller == old(awaiting)
      ensures !isGenerating && !hasAbortController && awaiting == NoCall
    {
      caller := awaiting;
      isGenerating, hasAbortController, awaiting := false, false, NoCall;
    }

    /** The end of the call in flight, then the rest of the caller that
        awaited it. The `finally` block clears `isGenerating` and the abort
        controller on every outcome; the reply is appended only when it is a
        non-empty string; a user send then stops the auto timer, and an
        auto-generation nulls the handle without cancelling anything. */
    method CompleteGeneration(outcome: Outcome, now: int) returns (reply: Option<string>)
      requires Valid() && isGenerating
      modifies this`isGenerating, this`hasAbortController, this`awaiting,
               this`assistantMessages, this`store, this`timers, this`autoGenTimer
      ensures Valid()
      ensures reply == Reply(outcome)
      ensures !isGenerating && !hasAbortController && awaiting == NoCall
      ensures assistantMessages == if Appends(reply) then old(assistantMessages) + [Message(Assistant, reply.value, now)]
                                   else old(assistantMessages)
      ensures store == if Appends(reply) then old(store)[ChatKey(chatId) := assistantMessages] else old(store)
      ensures old(awaiting) == UserCall ==> autoGenTimer == None && timers == Cleared(old(timers), old(autoGenTimer))
      ensures old(awaiting) == RegenerateCall ==> autoGenTimer == old(autoGenTimer) && timers == old(timers)
      ensures old(awaiting) == AutoCall ==> autoGenTimer == None && timers == old(timers)
    {
      reply := Reply(outcome);
      var caller := EndCall();
      if Appends(reply) {
        AddMessage(Assistant, reply.value, now);
      }
      match caller
      case UserCall => StopAutoGenTimer();
      case RegenerateCall =>
      case AutoCall => autoGenTimer := None;
    }

    // ---------------------------------------------------------------- events

    /** `handle_user_send` up to its `await`: ignored for blank input or
        while a call is in flight; otherwise the trimmed text is logged as a
        user message and the call starts (with no endpoint it returns `null`
        at once, and the auto timer is stopped right away). */
    method HandleUserSend(input: string, chat: seq<MainMessage>, now: int)
      requires Valid()
      modifies this`assistantMessages, this`store, this`isGenerating, this`hasAbortController,
               this`awaiting, this`request, this`timers, this`autoGenTimer
      ensures Valid()
      ensures Trim(input) == "" || old(isGenerating) ==> unchanged(this)
      ensures Trim(input) != "" && !old(isGenerating) ==>
        && assistantMessages == old(assistantMessages) + [Message(User, Trim(input), now)]
        && store == old(store)[ChatKey(chatId) := assistantMessages]
      ensures Trim(input) != "" && !old(isGenerating) && Settings.EndpointUrl(settings) != "" ==>
        && awaiting == UserCall && isGenerating && hasAbortController
        && request == Some(RequestFor(chat, Some(Trim(input))))
        && timers == old(timers) && autoGenTimer == old(autoGenTimer)
      ensures Trim(input) != "" && !old(isGenerating) && Settings.EndpointUrl(settings) == "" ==>
        && !isGenerating && !hasAbortController && awaiting == NoCall && request == old(request)
        && autoGenTimer == None && timers == Cleared(old(timers), old(autoGenTimer))
    {
      var message := Trim(input);
      if message == "" { return; }
      if isGenerating { return; }
      AddMessage(User, message, now);
      var started := GenerateBegin(chat, Some(message), UserCall);
      if !started {
        StopAutoGenTimer();
      }
    }

    /** The regenerate button up to its `await`: ignored while a call is in
        flight; otherwise an auto-commentary call starts when an endpoint is
        set. The log and the timers are not touched. */
    method Regenerate(chat: seq<MainMessage>)
      requires Valid()
      modifies this`isGenerating, this`hasAbortController, this`awaiting, this`request
      ensures Valid()
      ensures old(isGenerating) || Settings.EndpointUrl(settings) == "" ==> unchanged(this)
      ensures !old(isGenerating) && Settings.EndpointUrl(settings) != "" ==>
        && awaiting == RegenerateCall && isGenerating && hasAbortController
        && request == Some(RequestFor(chat, None))
    {
      if isGenerating { return; }
      var _ := GenerateBegin(chat, None, RegenerateCall);
    }

    /** The clear button: once confirmed, the log is emptied and the empty
        list is persisted for the current chat. */
    method ClearMessages(confirmed: bool)
      requires Valid()
      modifies this`assistantMessages, this`store
      ensures Valid()
      ensures !confirmed ==> unchanged(this)
      ensures confirmed ==> assistantMessages == [] && store == old(store)[ChatKey(chatId) := []]
    {
      if confirmed {
        assistantMessages := [];
        store := store[ChatKey(chatId) := []];
      }
    }

    /** A pending timer fires. The auto-generation callback does nothing
        when disabled (the handle keeps the fired id); while a call is in
        flight it only arms the 5 s retry; otherwise it starts one
        auto-commentary call, or, with no endpoint, nulls the handle. The
        retry runs the guarded `start_auto_gen_timer`. */
    method FireTimer(id: nat, chat: seq<MainMessage>, choice: nat)
      requires Valid() && id in timers
      modifies this`timers, this`autoGenTimer, this`nextTimerId,
               this`isGenerating, this`hasAbortController, this`awaiting, this`request
      ensures Valid()
      ensures old(timers[id]).job == AutoGenJob && !Settings.Enabled(settings) ==>
        && timers == old(timers) - {id} && autoGenTimer == old(autoGenTimer) && nextTimerId == old(nextTimerId)
        && unchanged(this`isGenerating, this`hasAbortController, this`awaiting, this`request)
      ensures old(timers[id]).job == AutoGenJob && Settings.Enabled(settings) && old(isGenerating) ==>
        && old(nextTimerId) !in old(timers)
        && timers == (old(timers) - {id})[old(nextTimerId) := Timer(RetryJob, RetryDelay)]
        && autoGenTimer == Some(old(nextTimerId)) && nextTimerId == old(nextTimerId) + 1
        && unchanged(this`isGenerating, this`hasAbortController, this`awaiting, this`request)
      ensures old(timers[id]).job == AutoGenJob && Settings.Enabled(settings) && !old(isGenerating)
                && Settings.EndpointUrl(settings) != "" ==>
        && timers == old(timers) - {id} && autoGenTimer == old(autoGenTimer) && nextTimerId == old(nextTimerId)
        && awaiting == AutoCall && isGenerating && hasAbortController
        && request == Some(RequestFor(chat, None))
      ensures old(timers[id]).job == AutoGenJob && Settings.Enabled(settings) && !old(isGenerating)
                && Settings.EndpointUrl(settings) == "" ==>
        && timers == old(timers) - {id} && autoGenTimer == None && nextTimerId == old(nextTimerId)
        && unchanged(this`isGenerating, this`hasAbortController, this`awaiting, this`request)
      ensures old(timers[id]).job == RetryJob ==>
        unchanged(this`isGenerating, this`hasAbortController, this`awaiting, this`request)
      ensures old(timers[id]).job == RetryJob && !CanArm() ==>
        && timers == old(timers) - {id} && autoGenTimer == old(autoGenTimer) && nextTimerId == old(nextTimerId)
      ensures old(timers[id]).job == RetryJob && CanArm() ==>
        && autoGenTimer == Some(old(nextTimerId)) && nextTimerId == old(nextTimerId) + 1
        && timers == Cleared(old(timers) - {id}, old(autoGenTimer))[old(nextTimerId) := Timer(AutoGenJob, NextDelay(choice))]
    {
      var job := timers[id].job;
      timers := timers - {id};
      match job
      case AutoGenJob =>
        if !Settings.Enabled(settings) { return; }
        if isGenerating {
          var retry := SetTimeout(Timer(RetryJob, RetryDelay));
          autoGenTimer := Some(retry);
          return;
        }
        var started := GenerateBegin(chat, None, AutoCall);
        if !started {
          autoGenTimer := None;
        }
      case RetryJob =>
        StartAutoGenTimer(choice);
    }

    /** `on_main_chat_message`: when enabled, restarts the auto timer (the
        new one only when an endpoint is set). A call in flight is never
        touched. */
    method OnMainChatMessage(choice: nat)
      requires Valid()
      modifies this`timers, this`autoGenTimer, this`nextTimerId
      ensures Valid()
      ensures !Settings.Enabled(settings) ==> unchanged(this)
      ensures Settings.Enabled(settings) && Settings.EndpointUrl(settings) == "" ==>
        autoGenTimer == None && timers == Cleared(old(timers), old(autoGenTimer)) && nextTimerId == old(nextTimerId)
      ensures CanArm() ==>
        && autoGenTimer == Some(old(nextTimerId)) && nextTimerId == old(nextTimerId) + 1
        && timers == Cleared(old(timers), old(autoGenTimer))[old(nextTimerId) := Timer(AutoGenJob, NextDelay(choice))]
    {
      if !Settings.Enabled(settings) { return; }
      StopAutoGenTimer();
      StartAutoGenTimer(choice);
    }

    /** The `CHAT_CHANGED` handler, with the host's new chat id: stops the
        auto timer and loads the stored list of the new chat, `[]` when
        there is none. It neither re-arms nor touches a call in flight. */
    method OnChatChanged(newChat: string)
      requires Valid()
      modifies this`timers, this`autoGenTimer, this`chatId, this`assistantMessages
      ensures Valid()
      ensures autoGenTimer == None && timers == Cleared(old(timers), old(autoGenTimer))
      ensures chatId == newChat
      ensures assistantMessages == if ChatKey(newChat) in store then store[ChatKey(newChat)] else []
    {
      StopAutoGenTimer();
      chatId := newChat;
      var key := ChatKey(chatId);
      if key in store {
        assistantMessages := store[key];
      } else {
        assistantMessages := [];
      }
    }

    // ------------------------------------------------------ settings handlers

    /** The enable toggle: stores the flag; unchecking stops the auto timer,
        checking arms nothing. */
    method OnEnabledChanged(checked: bool)
      requires Valid()
      modifies this`settings, this`timers, this`autoGenTimer
      ensures Valid()
      ensures settings == old(settings).(enabled := Some(checked))
      ensures checked ==> timers == old(timers) && autoGenTimer == old(autoGenTimer)
      ensures !checked ==> autoGenTimer == None && timers == Cleared(old(timers), old(autoGenTimer))
    {
      settings := settings.(enabled := Some(checked));
      if !checked {
        StopAutoGenTimer();
      }
    }

    /** The endpoint field: stores the trimmed URL. */
    method OnEndpointUrlChanged(text: string)
      requires Valid()
      modifies this`settings
      ensures Valid()
      ensures settings == old(settings).(endpointUrl := Some(Trim(text)))
    {
      settings := settings.(endpointUrl := Some(Trim(text)));
    }

    /** The name field: stores the trimmed name, `Beholder` when blank. */
    method OnAssistantNameChanged(text: string)
      requires Valid()
      modifies this`settings
      ensures Valid()
      ensures settings == old(settings).(assistantName := Some(DisplayName(Trim(text))))
    {
      settings := settings.(assistantName := Some(DisplayName(Trim(text))));
    }

    method OnMainChatDepthChanged(parsed: Option<int>)
      requires Valid()
      modifies this`settings
      ensures Valid()
      ensures settings == old(settings).(mainChatDepth := Some(Settings.MainChatDepthInput(parsed)))
    {
      settings := settings.(mainChatDepth := Some(Settings.MainChatDepthInput(parsed)));
    }

    method OnAssistantChatDepthChanged(parsed: Option<int>)
      requires Valid()
      modifies this`settings
      ensures Valid()
      ensures settings == old(settings).(assistantChatDepth := Some(Settings.AssistantChatDepthInput(parsed)))
    {
      settings := settings.(assistantChatDepth := Some(Settings.AssistantChatDepthInput(parsed)));
    }

    method OnMinWaitChanged(parsed: Option<int>)
      requires Valid()
      modifies this`settings
      ensures Valid()
      ensures settings == old(settings).(minWait := Some(Settings.MinWaitInput(parsed)))
    {
      settings := settings.(minWait := Some(Settings.MinWaitInput(parsed)));
    }

    /** The `max_wait` handler compares with the `min_wait` read at that
        moment, so right after it `max_wait >= min_wait + 10`. */
    method OnMaxWaitChanged(parsed: Option<int>)
      requires Valid()
      modifies this`settings
      ensures Valid()
      ensures settings == old(settings).(maxWait := Some(Settings.MaxWaitInput(parsed, Settings.MinWait(old(settings)))))
      ensures Settings.MaxWait(settings) >= Settings.MinWait(settings) + 10
    {
      var v := Settings.MaxWaitInput(parsed, Settings.MinWait(settings));
      settings := settings.(maxWait := Some(v));
    }
  }
}
