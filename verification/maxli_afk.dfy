/**
 * The AFK auto-responder: `.afk [reason]` switches the away mode on,
 * `.unafk` switches it off, and a watcher answers incoming messages that
 * address the owner while the mode is on, at most once per chat per timeout.
 *
 * The plugin's module-level globals become the fields of `AfkState`. The
 * clock, the owner's id and name, the timeout setting and the chat id the
 * host resolves are parameters.
 */
module MaxliAfk {
  import opened Wrappers
  import opened Text

  // ---------------------------------------------------------------------
  // format_duration
  // ---------------------------------------------------------------------

  /** The three shapes of an away-time text. */
  datatype Duration =
    | Seconds(secs: int)
    | MinutesSeconds(minutes: int, secs: int)
    | HoursMinutes(hours: int, minutes: int)

  /** The split `format_duration` performs with `divmod` by 60. */
  function SplitDuration(seconds: int): (d: Duration)
    ensures d.Seconds? <==> seconds < 60
    ensures d.MinutesSeconds? <==> 60 <= seconds < 3600
    ensures d.HoursMinutes? <==> 3600 <= seconds
    ensures d.Seconds? ==> d.secs == seconds
    ensures d.MinutesSeconds? ==>
      1 <= d.minutes <= 59 && 0 <= d.secs <= 59 && d.minutes * 60 + d.secs == seconds
    ensures d.HoursMinutes? ==>
      1 <= d.hours && 0 <= d.minutes < 60 &&
      d.hours * 3600 + d.minutes * 60 <= seconds < d.hours * 3600 + d.minutes * 60 + 60
  {
    if seconds < 60 then Seconds(seconds)
    else
      var minutes, secs := seconds / 60, seconds % 60;
      if minutes < 60 then MinutesSeconds(minutes, secs)
      else HoursMinutes(minutes / 60, minutes % 60)
  }

  function RenderDuration(d: Duration): string {
    match d
    case Seconds(s) => IntToString(s) + " сек."
    case MinutesSeconds(m, s) => IntToString(m) + " мин. " + IntToString(s) + " сек."
    case HoursMinutes(h, m) => IntToString(h) + " ч. " + IntToString(m) + " мин."
  }

  /** `format_duration(seconds)` for a whole number of seconds. */
  function FormatDuration(seconds: int): string {
    RenderDuration(SplitDuration(seconds))
  }

  /** The three texts in terms of the seconds, `divmod` by 60 and by 3600. */
  lemma FormatDurationText(seconds: int)
    ensures seconds < 60 ==> FormatDuration(seconds) == IntToString(seconds) + " сек."
    ensures 60 <= seconds < 3600 ==>
      FormatDuration(seconds) == IntToString(seconds / 60) + " мин. " + IntToString(seconds % 60) + " сек."
    ensures 3600 <= seconds ==>
      FormatDuration(seconds) == IntToString(seconds / 3600) + " ч. " + IntToString(seconds / 60 % 60) + " мин."
  {
    if 60 <= seconds < 3600 {
      assert SplitDuration(seconds) == MinutesSeconds(seconds / 60, seconds % 60);
    } else if 3600 <= seconds {
      var m := seconds / 60;
      var h, r := seconds / 3600, seconds % 3600;
      assert m == h * 60 + r / 60 by {
        DivideBySixty(seconds, h * 60 + r / 60, r % 60);
      }
      DivideBySixty(m, h, r / 60);
      assert SplitDuration(seconds) == HoursMinutes(h, m % 60);
    }
  }

  /** Division by 60 with remainder has one answer. */
  lemma DivideBySixty(n: int, q: int, r: int)
    requires 0 <= r < 60 && n == q * 60 + r
    ensures n / 60 == q && n % 60 == r
  {
  }

  // ---------------------------------------------------------------------
  // Messages as the watcher sees them
  // ---------------------------------------------------------------------

  /** The `reply_to_message` dictionary: only its `sender` entry matters. */
  datatype ReplyInfo = ReplyInfo(sender: Option<string>)

  /**
   * An incoming message. `None` stands for every falsy Python value (a
   * missing attribute, `None`, `""`); `sender` is already passed through
   * `str()`; `replyTo` is `None` unless the attribute is a dictionary;
   * `text` is `""` for a missing or empty text.
   */
  datatype IncomingMessage = IncomingMessage(
    sender: Option<string>,
    chatId: Option<int>,
    replyTo: Option<ReplyInfo>,
    text: string)

  /** What the watcher fills into the owner's `afk_message` template. */
  datatype AfkNotice = AfkNotice(reason: string, duration: string)

  const DefaultReason := "без причины"
  const NotAfk := "ℹ️ Вы и так не в режиме AFK."
  const UnafkDone := "✅ Режим AFK выключен. Вы отсутствовали: "

  predicate TruthyChat(c: Option<int>) {
    c.Some? && c.value != 0
  }

  /** The chat id: the message's own, else the one the host resolves. */
  function ResolvedChat(msg: IncomingMessage, awaitedChatId: Option<int>): Option<int> {
    if TruthyChat(msg.chatId) then msg.chatId else awaitedChatId
  }

  predicate IsReplyToMe(msg: IncomingMessage, myId: string) {
    msg.replyTo.Some? && msg.replyTo.value.sender == Some(myId)
  }

  predicate IsMentioned(msg: IncomingMessage, myName: string, isPm: bool) {
    !isPm && Contains(Lower(msg.text), Lower(myName))
  }

  /** `LAST_NOTIFIED.get(chat, 0)`. */
  function LastNotifiedAt(lastNotified: map<int, int>, chat: int): int {
    if chat in lastNotified then lastNotified[chat] else 0
  }

  class AfkState {
    var isAfk: bool
    var reason: string
    var startTime: int
    var lastNotified: map<int, int>

    /** The values the globals have when the plugin is loaded. */
    constructor ()
      ensures !isAfk && reason == "" && startTime == 0 && lastNotified == map[]
    {
      isAfk, reason, startTime, lastNotified := false, "", 0, map[];
    }

    /** `.afk [args]`: away from now on, with a fresh throttle map. */
    method AfkCommand(args: seq<string>, now: int) returns (reply: string)
      modifies this
      ensures isAfk
      ensures reason == if |args| > 0 then Join(args, " ") else DefaultReason
      ensures startTime == now
      ensures lastNotified == map[]
      ensures reply == "✅ Режим AFK включен.\nПричина: " + reason
    {
      var r := if |args| > 0 then Join(args, " ") else DefaultReason;
      isAfk := true;
      reason := r;
      startTime := now;
      lastNotified := map[];
      reply := "✅ Режим AFK включен.\nПричина: " + r;
    }

    /** `.unafk`: only the flag is cleared; reason, start and throttle map stay. */
    method UnafkCommand(now: int) returns (reply: string)
      modifies this
      ensures !isAfk
      ensures reason == old(reason) && startTime == old(startTime)
      ensures lastNotified == old(lastNotified)
      ensures !old(isAfk) ==> reply == NotAfk
      ensures old(isAfk) ==> reply == UnafkDone + FormatDuration(now - startTime)
    {
      if !isAfk {
        reply := NotAfk;
      } else {
        reply := UnafkDone + FormatDuration(now - startTime);
        isAfk := false;
      }
    }

    /**
     * `afk_watcher`: answers a private message, a reply to one of the
     * owner's messages or a group message naming the owner, unless the same
     * chat was answered less than `timeout` seconds ago.
     */
    method Watch(msg: IncomingMessage, myId: string, myName: string,
                 awaitedChatId: Option<int>, timeout: int, now: int)
      returns (notice: Option<AfkNotice>)
      modifies this
      // the flag, the reason and the start time are never touched
      ensures isAfk == old(isAfk) && reason == old(reason) && startTime == old(startTime)
      // silent, with nothing changed, when away mode is off, the sender is
      // missing or is the owner, or no chat id can be had
      ensures !old(isAfk) || msg.sender.None? || msg.sender == Some(myId)
              || !TruthyChat(ResolvedChat(msg, awaitedChatId))
        ==> notice.None? && lastNotified == old(lastNotified)
      // a notice goes out only to a private chat, a reply to the owner or a mention
      ensures notice.Some? ==>
        var chat := ResolvedChat(msg, awaitedChatId).value;
        chat > 0 || IsReplyToMe(msg, myId) || IsMentioned(msg, myName, chat > 0)
      // throttle: only after `timeout` seconds; the chat's entry becomes `now`
      ensures notice.Some? ==>
        var chat := ResolvedChat(msg, awaitedChatId).value;
        now - LastNotifiedAt(old(lastNotified), chat) >= timeout &&
        lastNotified == old(lastNotified)[chat := now]
      ensures notice.None? ==> lastNotified == old(lastNotified)
      // and it does go out whenever all of the above allow it
      ensures old(isAfk) && msg.sender.Some? && msg.sender != Some(myId)
              && TruthyChat(ResolvedChat(msg, awaitedChatId)) ==>
        var chat := ResolvedChat(msg, awaitedChatId).value;
        (chat > 0 || IsReplyToMe(msg, myId) || IsMentioned(msg, myName, chat > 0)) &&
        now - LastNotifiedAt(old(lastNotified), chat) >= timeout
        ==> notice == Some(AfkNotice(reason, FormatDuration(now - startTime)))
    {
      notice := None;
      if !isAfk { return; }
      if msg.sender.None? { return; }
      if msg.sender.value == myId { return; }

      var chatId := msg.chatId;
      if !TruthyChat(chatId) { chatId := awaitedChatId; }
      if !TruthyChat(chatId) { return; }
      var chat := chatId.value;

      var isPm := chat > 0;
      var isReplyToMe := false;
      if msg.replyTo.Some? {
        var replySender := msg.replyTo.value.sender;
        if replySender.Some? && replySender.value == myId {
          isReplyToMe := true;
        }
      }
      var isMentioned := !isPm && Contains(Lower(msg.text), Lower(myName));
      if !(isPm || isReplyToMe || isMentioned) { return; }

      if now - LastNotifiedAt(lastNotified, chat) < timeout { return; }

      notice := Some(AfkNotice(reason, FormatDuration(now - startTime)));
      lastNotified := lastNotified[chat := now];
    }
  }
}
