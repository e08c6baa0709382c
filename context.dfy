/**
 * The prompt context builder (`build_context`): the text sent as the user
 * message of every generation request. It shows the recent visible part of
 * the main roleplay chat, the recent part of the assistant conversation, and
 * ends with either the user's new message or the auto-commentary request.
 */
module Context {
  import opened Wrappers
  import opened Text
  import opened Ints

  /** An entry of the host's main chat (`name`, `mes`, `is_system`). */
  datatype MainMessage = MainMessage(name: string, mes: string, isSystem: bool)

  /** Who wrote a log entry: the roles `user` and `assistant`. */
  datatype Role = User | Assistant

  /** An entry of the assistant conversation log; the timestamp is an
      opaque number of milliseconds. */
  datatype Message = Message(role: Role, content: string, timestamp: int)

  const NoActivity := "(No main chat activity yet)"
  const AutoRequest := "(Auto-generated commentary request - comment on the main chat above)"
  const UserPrefix := "User's new message: "

  /** `chat.filter(m => !m.is_system)`. */
  function Visible(chat: seq<MainMessage>): (v: seq<MainMessage>)
    ensures |v| <= |chat|
    ensures forall i :: 0 <= i < |v| ==> !v[i].isSystem && v[i] in chat
  {
    if chat == [] then []
    else (if chat[0].isSystem then [] else [chat[0]]) + Visible(chat[1..])
  }

  /** Filtering distributes over concatenation, so the visible entries keep
      their relative order. */
  lemma {:induction false} VisibleAppend(a: seq<MainMessage>, b: seq<MainMessage>)
    ensures Visible(a + b) == Visible(a) + Visible(b)
  {
    if a == [] {
      assert a + b == b;
    } else {
      assert (a + b)[0] == a[0];
      assert (a + b)[1..] == a[1..] + b;
      VisibleAppend(a[1..], b);
    }
  }

  /** A chat without system entries is shown whole; one made only of
      system entries shows nothing. */
  lemma {:induction false} VisibleWithoutSystem(chat: seq<MainMessage>)
    requires forall i :: 0 <= i < |chat| ==> !chat[i].isSystem
    ensures Visible(chat) == chat
  {
    if chat != [] {
      VisibleWithoutSystem(chat[1..]);
      assert [chat[0]] + chat[1..] == chat;
    }
  }

  lemma {:induction false} VisibleOfSystemOnly(chat: seq<MainMessage>)
    requires forall i :: 0 <= i < |chat| ==> chat[i].isSystem
    ensures Visible(chat) == []
  {
    if chat != [] {
      VisibleOfSystemOnly(chat[1..]);
    }
  }

  /** `s.slice(-n)`, with JavaScript's reading of a negative start. For
      `n >= 1` it is the last `min(n, |s|)` elements; `-0` is `0`, so
      `n == 0` keeps everything, and a negative `n` drops the first `-n`. */
  function Last<T>(s: seq<T>, n: int): (r: seq<T>)
    ensures n >= 1 ==> |r| == Min(n, |s|) && r == s[|s| - Min(n, |s|)..]
    ensures n == 0 ==> r == s
    ensures n < 0 ==> r == s[Min(-n, |s|)..]
  {
    var start := -n;
    var k := if start < 0 then (if |s| + start < 0 then 0 else |s| + start)
             else Min(start, |s|);
    s[k..]
  }

  /** The label of an assistant-log entry: `User` for role `user`, the
      assistant's name otherwise. */
  function Label(role: Role, assistantName: string): string {
    if role == User then "User" else assistantName
  }

  /** `get_settings('assistant_name') || 'Beholder'`. */
  function DisplayName(setting: string): string {
    OrDefault(setting, "Beholder")
  }

  function MainLines(ms: seq<MainMessage>): (r: seq<string>)
    ensures |r| == |ms|
  {
    seq(|ms|, i requires 0 <= i < |ms| => ms[i].name + ": " + ms[i].mes)
  }

  function AssistantLines(ms: seq<Message>, assistantName: string): (r: seq<string>)
    ensures |r| == |ms|
  {
    seq(|ms|, i requires 0 <= i < |ms| => Label(ms[i].role, assistantName) + ": " + ms[i].content)
  }

  /** The inside of the `<main_chat>` block. */
  function MainChatText(chat: seq<MainMessage>, depth: int): string {
    var history := Last(Visible(chat), depth);
    if |history| > 0 then Join(MainLines(history), "\n") else NoActivity
  }

  /** The inside of the `<assistant_chat>` block; empty when there is
      nothing to show. */
  function AssistantChatText(log: seq<Message>, depth: int, nameSetting: string): string {
    var recent := Last(log, depth);
    if |recent| > 0 then Join(AssistantLines(recent, DisplayName(nameSetting)), "\n") else ""
  }

  /** JavaScript truthiness of the optional user message. */
  predicate HasUserText(userMessage: Option<string>) {
    userMessage.Some? && userMessage.value != ""
  }

  function Trailer(userMessage: Option<string>): string {
    if HasUserText(userMessage) then UserPrefix + userMessage.value else AutoRequest
  }

  function MainBlock(chat: seq<MainMessage>, depth: int): string {
    "<main_chat>\n" + MainChatText(chat, depth) + "\n</main_chat>"
  }

  function AssistantBlock(assistantText: string): string {
    "\n\n<assistant_chat>\n" + assistantText + "\n</assistant_chat>"
  }

  /** `build_context(userMessage)` with the host chat, the log and the
      settings it reads made parameters. */
  function BuildContext(chat: seq<MainMessage>, log: seq<Message>, mainDepth: int,
                        assistantDepth: int, nameSetting: string,
                        userMessage: Option<string>): string
  {
    var main := MainBlock(chat, mainDepth);
    var assistantText := AssistantChatText(log, assistantDepth, nameSetting);
    var withAssistant := if assistantText != "" then main + AssistantBlock(assistantText) else main;
    withAssistant + "\n\n" + Trailer(userMessage)
  }

  /** A line `name: text` is never empty and has a colon right after the
      name, so a non-empty list of them joins to a text with that colon. */
  lemma JoinedLinesHaveColon(lines: seq<string>, at: nat)
    requires |lines| > 0 && at + 1 < |lines[0]| && lines[0][at] == ':'
    ensures var t := Join(lines, "\n"); at < |t| && t[at] == ':'
  {
    JoinStartsWithFirst(lines, "\n");
  }

  /** The `<main_chat>` block holds the placeholder exactly when there is no
      visible entry to show (the placeholder has no colon, every line has). */
  lemma MainChatTextPlaceholderIff(chat: seq<MainMessage>, depth: int)
    ensures MainChatText(chat, depth) == NoActivity <==> Last(Visible(chat), depth) == []
  {
    var history := Last(Visible(chat), depth);
    if |history| > 0 {
      var lines := MainLines(history);
      JoinedLinesHaveColon(lines, |history[0].name|);
      assert forall i :: 0 <= i < |NoActivity| ==> NoActivity[i] != ':';
    }
  }

  /** The `<assistant_chat>` text is empty exactly when the log window is. */
  lemma AssistantChatTextEmptyIff(log: seq<Message>, depth: int, nameSetting: string)
    ensures AssistantChatText(log, depth, nameSetting) == "" <==> Last(log, depth) == []
  {
    var recent := Last(log, depth);
    if |recent| > 0 {
      var lines := AssistantLines(recent, DisplayName(nameSetting));
      assert |lines[0]| > 0;
      JoinStartsWithFirst(lines, "\n");
    }
  }

  /** The layout of the context: the main block, then the assistant block
      only when the log window is non-empty, then a blank line and the
      trailer. */
  lemma ContextLayout(chat: seq<MainMessage>, log: seq<Message>, mainDepth: int,
                      assistantDepth: int, nameSetting: string, userMessage: Option<string>)
    ensures var recent := Last(log, assistantDepth);
      BuildContext(chat, log, mainDepth, assistantDepth, nameSetting, userMessage)
        == MainBlock(chat, mainDepth)
           + (if recent == [] then "" else AssistantBlock(AssistantChatText(log, assistantDepth, nameSetting)))
           + "\n\n" + Trailer(userMessage)
  {
    AssistantChatTextEmptyIff(log, assistantDepth, nameSetting);
    if Last(log, assistantDepth) == [] {
      assert MainBlock(chat, mainDepth) + "" == MainBlock(chat, mainDepth);
    }
  }

  lemma PrefixOfConcat<T>(a: seq<T>, b: seq<T>, k: nat)
    requires k <= |a|
    ensures (a + b)[..k] == a[..k]
  {
  }

  /** The context opens with the main block and ends with the trailer: the
      user's text behind `User's new message: ` when a non-empty one is
      given, the auto-commentary request otherwise. */
  lemma ContextEnds(chat: seq<MainMessage>, log: seq<Message>, mainDepth: int,
                    assistantDepth: int, nameSetting: string, userMessage: Option<string>)
    ensures var c := BuildContext(chat, log, mainDepth, assistantDepth, nameSetting, userMessage);
      var m := MainBlock(chat, mainDepth);
      var t := if HasUserText(userMessage) then UserPrefix + userMessage.value else AutoRequest;
      |m| + |t| <= |c| && c[..|m|] == m && c[|c| - |t|..] == t
  {
    var m := MainBlock(chat, mainDepth);
    var t := Trailer(userMessage);
    var a := if Last(log, assistantDepth) == [] then "" else AssistantBlock(AssistantChatText(log, assistantDepth, nameSetting));
    var head := m + a + "\n\n";
    ContextLayout(chat, log, mainDepth, assistantDepth, nameSetting, userMessage);
    PrefixOfConcat(head, t, |m|);
    PrefixOfConcat(m + a, "\n\n", |m|);
    PrefixOfConcat(m, a, |m|);
    assert m[..|m|] == m;
  }

  /** No newline inside any shown field, so the blocks split into lines. */
  ghost predicate MainSingleLine(chat: seq<MainMessage>) {
    forall m :: m in chat ==> '\n' !in m.name && '\n' !in m.mes
  }

  ghost predicate LogSingleLine(log: seq<Message>, nameSetting: string) {
    '\n' !in nameSetting && forall i :: 0 <= i < |log| ==> '\n' !in log[i].content
  }

  lemma MainLinesSingleLine(ms: seq<MainMessage>)
    requires MainSingleLine(ms)
    ensures forall i :: 0 <= i < |ms| ==> '\n' !in MainLines(ms)[i]
  {
    forall i | 0 <= i < |ms| ensures '\n' !in MainLines(ms)[i] {
      assert ms[i] in ms;
      assert MainLines(ms)[i] == ms[i].name + [':', ' '] + ms[i].mes;
    }
  }

  /** For any content, the `<main_chat>` text is the `name: mes` lines of
      the last `min(depth, v)` of the `v` visible entries, in order, joined
      by newlines, when there is at least one. */
  lemma MainChatWindow(chat: seq<MainMessage>, depth: int)
    requires depth >= 1
    ensures var v := Visible(chat); var k := Min(depth, |v|);
      k > 0 ==> MainChatText(chat, depth) == Join(MainLines(v[|v| - k..]), "\n")
  {
  }

  /** For any content, the `<assistant_chat>` text is the labelled lines of
      the last `min(depth, |log|)` log entries, in order, joined by newlines,
      when there is at least one. */
  lemma AssistantChatWindow(log: seq<Message>, depth: int, nameSetting: string)
    requires depth >= 1
    ensures var k := Min(depth, |log|);
      k > 0 ==> AssistantChatText(log, depth, nameSetting)
                  == Join(AssistantLines(log[|log| - k..], DisplayName(nameSetting)), "\n")
  {
  }

  /** The `<main_chat>` block lists, one per line and in the original order,
      the last `min(depth, v)` of the `v` visible entries as `name: mes`;
      with no visible entry it is the placeholder (a single line). */
  lemma MainChatLines(chat: seq<MainMessage>, depth: int)
    requires depth >= 1 && MainSingleLine(chat)
    ensures var v := Visible(chat); var k := Min(depth, |v|);
      && (k == 0 ==> MainChatText(chat, depth) == NoActivity)
      && (k > 0 ==> Split(MainChatText(chat, depth), '\n') == MainLines(v[|v| - k..]))
  {
    var v := Visible(chat);
    var history := Last(v, depth);
    if history != [] {
      assert MainSingleLine(history) by {
        forall m | m in history ensures m in chat {
          assert m in v;
        }
      }
      MainLinesSingleLine(history);
      SplitJoin(MainLines(history), '\n');
    }
  }

  /** The `<assistant_chat>` block lists the last `min(depth, |log|)` log
      entries in order, one per line, each as its label, a colon and its
      content. */
  lemma AssistantChatLines(log: seq<Message>, depth: int, nameSetting: string)
    requires depth >= 1 && LogSingleLine(log, nameSetting) && log != []
    ensures var k := Min(depth, |log|);
      Split(AssistantChatText(log, depth, nameSetting), '\n')
        == AssistantLines(log[|log| - k..], DisplayName(nameSetting))
  {
    var name := DisplayName(nameSetting);
    var recent := Last(log, depth);
    var lines := AssistantLines(recent, name);
    forall i | 0 <= i < |lines| ensures '\n' !in lines[i] {
      assert '\n' !in Label(recent[i].role, name) by {
        assert forall j :: 0 <= j < |"User"| ==> "User"[j] != '\n';
        assert forall j :: 0 <= j < |"Beholder"| ==> "Beholder"[j] != '\n';
      }
      assert recent[i] in log;
    }
    SplitJoin(lines, '\n');
  }
}
