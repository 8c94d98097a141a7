/**
 * The per-user reminder table and the webhook loop, as functions on a value
 * `World`. `Bot` in bot.dfy runs the same steps imperatively and is proved to
 * agree with these functions.
 *
 * A timer handle is the index of its entry in `issued`, the list of every timer
 * `setTimeout` ever created; `clearTimeout` adds a handle to `cancelled`, and a
 * timer that has gone off is in `fired`. Real time never passes in the model:
 * a timer goes off only when `Fired` is applied to it.
 */
module Reminders {
  import opened Optional
  import opened JsStrings
  import opened Events
  import opened Sweet
  import opened Reply

  /** What the callback of one `setTimeout` captures: the user, the delay in milliseconds and the index in the plan. */
  datatype Timer = Timer(user: UserId, delay: Option<int>, position: nat)

  /** The value `users` maps a user id to. */
  datatype UserRecord = UserRecord(lastSeen: int, timers: seq<nat>)

  /**
   * An outbound call to the messaging platform. A reply is recorded only once
   * its awaited `replyMessage` has resolved; a push is recorded when the timer
   * callback issues it, since nothing observes whether it succeeds.
   */
  datatype Outgoing =
    | ReplyTo(token: string, text: JsString)   // a resolved `client.replyMessage`
    | PushTo(user: UserId, text: JsString)     // an issued `client.pushMessage`

  datatype World = World(
    users: map<UserId, UserRecord>,
    issued: seq<Timer>,
    cancelled: set<nat>,
    fired: set<nat>,
    sent: seq<Outgoing>)

  /** The state at process start. */
  const Initial: World := World(map[], [], {}, {}, [])

  /** `mins * 60 * 1000`; NaN stays NaN. */
  function DelayMs(minutes: Option<int>): (delay: Option<int>)
    ensures delay.Some? == minutes.Some?
    ensures minutes.Some? ==> delay.value == minutes.value * 60_000
  {
    match minutes
    case None => None
    case Some(m) => Some(m * 60 * 1000)
  }

  /** A timer that will still go off: created, neither cancelled nor fired. */
  predicate Live(w: World, h: nat) {
    h < |w.issued| && h !in w.cancelled && h !in w.fired
  }

  /** The handles of the reminders still due to user `u`. */
  function LiveFor(w: World, u: UserId): set<nat> {
    set h | 0 <= h < |w.issued| && w.issued[h].user == u && h !in w.cancelled && h !in w.fired
  }

  function Elements(hs: seq<nat>): set<nat> {
    set h | h in hs
  }

  /** The timers `reminderMinutes.map(...)` creates for `u`, in order. */
  function Plan(u: UserId, offsets: seq<Option<int>>): (timers: seq<Timer>)
    ensures |timers| == |offsets|
    ensures forall j :: 0 <= j < |offsets| ==> timers[j] == Timer(u, DelayMs(offsets[j]), j)
  {
    seq(|offsets|, j requires 0 <= j < |offsets| => Timer(u, DelayMs(offsets[j]), j))
  }

  /** The handles `start`, `start + 1`, ..., `start + n - 1`. */
  function Handles(start: nat, n: nat): (hs: seq<nat>)
    ensures |hs| == n
    ensures forall j :: 0 <= j < n ==> hs[j] == start + j
  {
    seq(n, j requires 0 <= j < n => start + j)
  }

  /**
   * The invariant of the table: every handle stored for a user belongs to one
   * of that user's timers, at the position it was created for, and only issued
   * handles are ever cancelled or fired.
   */
  ghost predicate WellFormed(w: World) {
    && (forall u, j :: u in w.users && 0 <= j < |w.users[u].timers| ==>
          var h := w.users[u].timers[j];
          h < |w.issued| && w.issued[h].user == u && w.issued[h].position == j)
    && (forall h :: h in w.cancelled ==> h < |w.issued|)
    && (forall h :: h in w.fired ==> h < |w.issued|)
  }

  lemma InitialWellFormed()
    ensures WellFormed(Initial)
  {
  }

  // ---------------------------------------------------------------------------
  // clearTimers and scheduleReminders
  // ---------------------------------------------------------------------------

  /** The handles stored for `u`, none when `u` is unknown. */
  function Stored(w: World, u: UserId): set<nat> {
    if u in w.users then Elements(w.users[u].timers) else {}
  }

  /** The handles `start`, ..., `start + n - 1` as a set. */
  function RangeSet(start: nat, n: nat): (s: set<nat>)
    ensures forall h :: h in s <==> start <= h < start + n
  {
    if n == 0 then {} else RangeSet(start, n - 1) + {start + n - 1}
  }

  lemma {:induction false} RangeSetSize(start: nat, n: nat)
    ensures |RangeSet(start, n)| == n
  {
    if n > 0 {
      RangeSetSize(start, n - 1);
    }
  }

  /** `clearTimers(userId)`: an unknown user is left alone. */
  function Cleared(w: World, u: UserId): (w': World)
    ensures u in w.users ==> u in w'.users && w'.users[u] == UserRecord(w.users[u].lastSeen, [])
    ensures w'.users.Keys == w.users.Keys && w'.issued == w.issued
  {
    if u !in w.users then w
    else
      var record := w.users[u];
      w.(users := w.users[u := record.(timers := [])], cancelled := w.cancelled + Elements(record.timers))
  }

  /**
   * `clearTimers` cancels every stored handle and empties the list; nothing
   * else changes, and for an unknown user nothing changes at all.
   */
  lemma ClearedEffect(w: World, u: UserId)
    ensures var w' := Cleared(w, u);
      && w'.issued == w.issued && w'.fired == w.fired && w'.sent == w.sent
      && w'.cancelled == w.cancelled + Stored(w, u)
      && (u !in w.users ==> w' == w)
      && (u in w.users ==> w'.users == w.users[u := w.users[u].(timers := [])])
      && (forall h :: h in Stored(w, u) ==> !Live(w', h))
      && LiveFor(w', u) == LiveFor(w, u) - Stored(w, u)
  {
  }

  /** `scheduleReminders(userId)` run at time `now`. */
  function Scheduled(w: World, u: UserId, now: int, offsets: seq<Option<int>>): (w': World)
    ensures u in w'.users && w'.users[u].lastSeen == now && |w'.users[u].timers| == |offsets|
    ensures |w'.issued| == |w.issued| + |offsets|
  {
    var cleared := Cleared(w, u);
    cleared.(
      users := cleared.users[u := UserRecord(now, Handles(|cleared.issued|, |offsets|))],
      issued := cleared.issued + Plan(u, offsets))
  }

  /**
   * After `scheduleReminders`, the user's record holds `now` and exactly one
   * handle per offset; handle `j` is a new timer with delay
   * `offsets[j] * 60000` ms for plan position `j`.
   */
  lemma ScheduledRecord(w: World, u: UserId, now: int, offsets: seq<Option<int>>)
    ensures var w' := Scheduled(w, u, now, offsets);
      && u in w'.users && w'.users[u].lastSeen == now
      && w'.users[u].timers == Handles(|w.issued|, |offsets|)
      && forall j :: 0 <= j < |offsets| ==>
           var h := w'.users[u].timers[j];
           h < |w'.issued| && w'.issued[h] == Timer(u, DelayMs(offsets[j]), j)
  {
  }

  /** In a well-formed table every stored handle has been issued. */
  lemma StoredIssued(w: World, u: UserId)
    requires WellFormed(w)
    ensures forall h :: h in Stored(w, u) ==> h < |w.issued|
  {
    forall h | h in Stored(w, u)
      ensures h < |w.issued|
    {
      var j :| 0 <= j < |w.users[u].timers| && w.users[u].timers[j] == h;
    }
  }

  /** `scheduleReminders` cancels the stored handles and nothing else, touches no other user, and sends nothing. */
  lemma ScheduledFrame(w: World, u: UserId, now: int, offsets: seq<Option<int>>)
    ensures var w' := Scheduled(w, u, now, offsets);
      && w'.cancelled == w.cancelled + Stored(w, u)
      && w'.issued == w.issued + Plan(u, offsets)
      && w'.fired == w.fired && w'.sent == w.sent
      && w'.users.Keys == w.users.Keys + {u}
      && forall v :: v in w.users && v != u ==> w'.users[v] == w.users[v]
  {
  }

  /**
   * The live reminders after new timers `plan` for `u` are issued and the
   * already issued handles `c` are cancelled: every user loses the handles of
   * `c`, and `u` gains the new ones.
   */
  lemma LiveAfter(w: World, w': World, u: UserId, plan: seq<Timer>, c: set<nat>, v: UserId)
    requires w'.issued == w.issued + plan && w'.cancelled == w.cancelled + c && w'.fired == w.fired
    requires forall j :: 0 <= j < |plan| ==> plan[j].user == u
    requires forall h :: h in w.cancelled || h in w.fired || h in c ==> h < |w.issued|
    ensures LiveFor(w', v) == (LiveFor(w, v) - c) + (if v == u then RangeSet(|w.issued|, |plan|) else {})
  {
    forall h
      ensures h in LiveFor(w', v) <==> h in (LiveFor(w, v) - c) + (if v == u then RangeSet(|w.issued|, |plan|) else {})
    {
      LiveAfterAt(w, w', u, plan, c, v, h);
    }
  }

  /** `LiveAfter` for one handle. */
  lemma LiveAfterAt(w: World, w': World, u: UserId, plan: seq<Timer>, c: set<nat>, v: UserId, h: nat)
    requires w'.issued == w.issued + plan && w'.cancelled == w.cancelled + c && w'.fired == w.fired
    requires forall j :: 0 <= j < |plan| ==> plan[j].user == u
    requires forall h :: h in w.cancelled || h in w.fired || h in c ==> h < |w.issued|
    ensures h in LiveFor(w', v) <==> (h in LiveFor(w, v) && h !in c) || (v == u && |w.issued| <= h < |w.issued| + |plan|)
  {
    if h < |w.issued| {
      assert w'.issued[h] == w.issued[h];
    } else if h < |w'.issued| {
      assert w'.issued[h] == plan[h - |w.issued|];
    }
  }

  /**
   * Called on its own, `scheduleReminders` replaces the stored reminders: the
   * user's live reminders afterwards are the ones live before minus the stored
   * ones, plus one new timer per offset.
   */
  lemma ScheduledLive(w: World, u: UserId, now: int, offsets: seq<Option<int>>)
    requires WellFormed(w)
    ensures LiveFor(Scheduled(w, u, now, offsets), u) == (LiveFor(w, u) - Stored(w, u)) + RangeSet(|w.issued|, |offsets|)
  {
    ScheduledFrame(w, u, now, offsets);
    StoredIssued(w, u);
    LiveAfter(w, Scheduled(w, u, now, offsets), u, Plan(u, offsets), Stored(w, u), u);
  }

  /** With a well-formed table, scheduling for `u` leaves every other user's reminders alone. */
  lemma ScheduledSparesOthers(w: World, u: UserId, now: int, offsets: seq<Option<int>>, v: UserId)
    requires WellFormed(w) && v != u
    ensures LiveFor(Scheduled(w, u, now, offsets), v) == LiveFor(w, v)
  {
    ScheduledFrame(w, u, now, offsets);
    StoredIssued(w, u);
    LiveAfter(w, Scheduled(w, u, now, offsets), u, Plan(u, offsets), Stored(w, u), v);
    StoredNotLiveForOthers(w, u, v);
  }

  /** In a well-formed table a handle stored for `u` belongs to a timer of `u`. */
  lemma StoredNotLiveForOthers(w: World, u: UserId, v: UserId)
    requires WellFormed(w) && v != u
    ensures LiveFor(w, v) !! Stored(w, u)
  {
    forall h | h in Stored(w, u)
      ensures h !in LiveFor(w, v)
    {
      var j :| 0 <= j < |w.users[u].timers| && w.users[u].timers[j] == h;
    }
  }

  /** Scheduling keeps the table well formed. */
  lemma ScheduledWellFormed(w: World, u: UserId, now: int, offsets: seq<Option<int>>)
    requires WellFormed(w)
    ensures WellFormed(Scheduled(w, u, now, offsets))
  {
    var w' := Scheduled(w, u, now, offsets);
    ScheduledFrame(w, u, now, offsets);
    ScheduledRecord(w, u, now, offsets);
    forall v, j | v in w'.users && 0 <= j < |w'.users[v].timers|
      ensures var h := w'.users[v].timers[j];
        h < |w'.issued| && w'.issued[h].user == v && w'.issued[h].position == j
    {
      if v != u {
        var h := w.users[v].timers[j];
        assert w'.issued[h] == w.issued[h];
      }
    }
  }

  /** Two direct calls of `scheduleReminders`: the handles of the first are all cancelled by the second. */
  lemma ScheduledTwiceCancelsFirst(w: World, u: UserId, t1: int, t2: int, offsets: seq<Option<int>>)
    ensures var w1 := Scheduled(w, u, t1, offsets);
      forall h :: h in w1.users[u].timers ==> !Live(Scheduled(w1, u, t2, offsets), h)
  {
    var w1 := Scheduled(w, u, t1, offsets);
    ScheduledRecord(w, u, t1, offsets);
    ScheduledFrame(w1, u, t2, offsets);
  }

  // ---------------------------------------------------------------------------
  // The webhook path: line 32 followed by scheduleReminders
  // ---------------------------------------------------------------------------

  /**
   * `users.set(userId, { ...old, lastSeen: now, timers: [] })` followed by
   * `scheduleReminders(userId)`. The record holds no other field, so the spread
   * keeps nothing else; both clock reads happen before any await, and the first
   * value is overwritten before anything reads it, so one time `now` serves both.
   */
  function Touched(w: World, u: UserId, now: int, offsets: seq<Option<int>>): (w': World)
    ensures w'.cancelled == w.cancelled
    ensures u in w'.users && w'.users[u].lastSeen == now
  {
    Scheduled(w.(users := w.users[u := UserRecord(now, [])]), u, now, offsets)
  }

  /**
   * On the webhook path nothing is cancelled: the first step forgets the stored
   * handles, so the `clearTimers` inside `scheduleReminders` finds an empty
   * list. The user's record then holds `now` and only the newest handles.
   */
  lemma TouchedEffect(w: World, u: UserId, now: int, offsets: seq<Option<int>>)
    ensures var w' := Touched(w, u, now, offsets);
      && w'.cancelled == w.cancelled
      && w'.users[u] == UserRecord(now, Handles(|w.issued|, |offsets|))
      && w'.users.Keys == w.users.Keys + {u}
      && (forall v :: v in w.users && v != u ==> w'.users[v] == w.users[v])
      && w'.issued == w.issued + Plan(u, offsets)
      && w'.fired == w.fired && w'.sent == w.sent
  {
    var forgotten := w.(users := w.users[u := UserRecord(now, [])]);
    ScheduledFrame(forgotten, u, now, offsets);
    ScheduledRecord(forgotten, u, now, offsets);
    assert Stored(forgotten, u) == {};
  }

  /**
   * On the webhook path every reminder that was live stays live: the user gets
   * one more live timer per offset, and nobody else's reminders change.
   */
  lemma TouchedLive(w: World, u: UserId, now: int, offsets: seq<Option<int>>)
    requires WellFormed(w)
    ensures LiveFor(Touched(w, u, now, offsets), u) == LiveFor(w, u) + RangeSet(|w.issued|, |offsets|)
    ensures |LiveFor(Touched(w, u, now, offsets), u)| == |LiveFor(w, u)| + |offsets|
    ensures forall v :: v != u ==> LiveFor(Touched(w, u, now, offsets), v) == LiveFor(w, v)
  {
    var w' := Touched(w, u, now, offsets);
    TouchedEffect(w, u, now, offsets);
    forall v
      ensures LiveFor(w', v) == LiveFor(w, v) + (if v == u then RangeSet(|w.issued|, |offsets|) else {})
    {
      LiveAfter(w, w', u, Plan(u, offsets), {}, v);
    }
    assert LiveFor(w, u) !! RangeSet(|w.issued|, |offsets|);
    RangeSetSize(|w.issued|, |offsets|);
  }

  /** Line 32 on its own keeps the table well formed: an empty list stores nothing. */
  lemma ForgetWellFormed(w: World, u: UserId, now: int)
    requires WellFormed(w)
    ensures WellFormed(w.(users := w.users[u := UserRecord(now, [])]))
  {
  }

  /** The webhook path keeps the table well formed. */
  lemma TouchedWellFormed(w: World, u: UserId, now: int, offsets: seq<Option<int>>)
    requires WellFormed(w)
    ensures WellFormed(Touched(w, u, now, offsets))
  {
    ForgetWellFormed(w, u, now);
    ScheduledWellFormed(w.(users := w.users[u := UserRecord(now, [])]), u, now, offsets);
  }

  /**
   * Two events from the same user: after the second, the reminders the first
   * one scheduled are still live, so two sets are pending at once.
   */
  lemma TouchedTwiceKeepsFirst(w: World, u: UserId, t1: int, t2: int, offsets: seq<Option<int>>)
    requires WellFormed(w)
    ensures var w1 := Touched(w, u, t1, offsets);
      forall h :: h in w1.users[u].timers ==> Live(Touched(w1, u, t2, offsets), h)
  {
    var w1 := Touched(w, u, t1, offsets);
    TouchedEffect(w, u, t1, offsets);
    TouchedEffect(w1, u, t2, offsets);
    TouchedLive(w, u, t1, offsets);
  }

  // ---------------------------------------------------------------------------
  // A reminder going off
  // ---------------------------------------------------------------------------

  /**
   * The callback of timer `h` when `pick` draws pet name `nick`: it pushes the
   * reminder text to the timer's user. A cancelled or already fired timer does
   * nothing; a failed push changes nothing either.
   */
  function Fired(w: World, h: nat, nick: nat): (w': World)
    requires nick < |Nicknames|
    ensures !Live(w, h) ==> w' == w
    ensures Live(w, h) ==>
      && !Live(w', h)
      && w'.fired == w.fired + {h}
      && exists name :: name in Nicknames &&
           w'.sent == w.sent + [PushTo(w.issued[h].user, name + [FullwidthTilde] + Reminders[TemplateIndex(w.issued[h].position)])]
    ensures w'.users == w.users && w'.issued == w.issued && w'.cancelled == w.cancelled
  {
    if Live(w, h) then
      var timer := w.issued[h];
      w.(fired := w.fired + {h}, sent := w.sent + [PushTo(timer.user, ReminderText(nick, timer.position))])
    else w
  }

  /** A reminder going off keeps the table well formed. */
  lemma FiredWellFormed(w: World, h: nat, nick: nat)
    requires nick < |Nicknames| && WellFormed(w)
    ensures WellFormed(Fired(w, h, nick))
  {
  }

  /** A reminder going off consumes its own timer only: every other timer is exactly as live as before. */
  lemma FiredSparesOthers(w: World, h: nat, nick: nat)
    requires nick < |Nicknames|
    ensures forall k :: k != h ==> (Live(Fired(w, h, nick), k) <==> Live(w, k))
    ensures forall u :: LiveFor(Fired(w, h, nick), u) == LiveFor(w, u) - {h}
  {
  }

  /** A timer goes off at most once. */
  lemma FiredOnce(w: World, h: nat, nick1: nat, nick2: nat)
    requires nick1 < |Nicknames| && nick2 < |Nicknames|
    ensures Fired(Fired(w, h, nick1), h, nick2) == Fired(w, h, nick1)
  {
  }

  // ---------------------------------------------------------------------------
  // POST /webhook
  // ---------------------------------------------------------------------------

  /** What `await openai.chat.completions.create(...)` gives: a rejection, or the content of the first choice. */
  datatype Completion = Threw | Returned(content: Option<JsString>)

  /**
   * Everything outside the process, indexed by the position of the event in the
   * batch: the clock read while handling it, the completion API's answer to its
   * request, and whether its `replyMessage` resolves.
   */
  datatype Env = Env(clock: nat -> int, complete: (nat, ChatRequest) -> Completion, delivered: nat -> bool)

  /** The state after an event, and whether an awaited call rejected and ended the handler. */
  datatype Progress = Progress(world: World, stopped: bool)

  /** The text of the follow greeting. */
  const GreetingText: JsString := Js("你好，我會陪著你～一段時間沒回我，我會主動找你喔。")

  /** `await client.replyMessage(token, ...)`: resolved, the reply is recorded; rejected, the handler ends. */
  function SendReply(w: World, token: string, text: JsString, delivered: bool): (p: Progress)
    ensures p.stopped <==> !delivered
    ensures delivered ==> p.world == w.(sent := w.sent + [ReplyTo(token, text)])
    ensures !delivered ==> p.world == w
  {
    if delivered then Progress(w.(sent := w.sent + [ReplyTo(token, text)]), false)
    else Progress(w, true)
  }

  /**
   * The loop body for event `e` at position `i` of the batch: an event without
   * a user changes nothing, and no event sends more than one reply.
   */
  function Step(w: World, e: Event, i: nat, env: Env, offsets: seq<Option<int>>): (p: Progress)
    ensures !HasUser(e) ==> p == Progress(w, false)
    ensures w.sent <= p.world.sent && |p.world.sent| <= |w.sent| + 1
  {
    match Decide(e)
    case Skip => Progress(w, false)
    case Touch(u, response) =>
      var w1 := Touched(w, u, env.clock(i), offsets);
      match response
      case Silent => Progress(w1, false)
      case Crash => Progress(w1, true)
      case Greeting => SendReply(w1, e.replyToken, GreetingText, env.delivered(i))
      case Generated(text) =>
        match env.complete(i, BuildRequest(text))
        case Threw => Progress(w1, true)
        case Returned(content) => SendReply(w1, e.replyToken, Finish(content), env.delivered(i))
  }

  /**
   * The loop over `events`, in order, ending early at the first rejected call.
   * What was sent before stays sent, and each event adds at most one reply.
   */
  function Run(w: World, events: seq<Event>, env: Env, offsets: seq<Option<int>>): (p: Progress)
    ensures w.sent <= p.world.sent && |p.world.sent| <= |w.sent| + |events|
    decreases |events|
  {
    if events == [] then Progress(w, false)
    else
      var before := Run(w, events[..|events| - 1], env, offsets);
      if before.stopped then before
      else Step(before.world, events[|events| - 1], |events| - 1, env, offsets)
  }

  /** `const events = req.body.events || []` and the loop over them. */
  function Webhook(w: World, events: Option<seq<Event>>, env: Env, offsets: seq<Option<int>>): (p: Progress)
    ensures events.None? ==> p == Progress(w, false)
  {
    Run(w, events.GetOr([]), env, offsets)
  }

  // ---------------------------------------------------------------------------
  // What a batch does, stated event by event
  // ---------------------------------------------------------------------------

  /** What event `i` sends back, independently of the table. */
  datatype Answer = NoAnswer | Answers(text: JsString) | Aborts

  function AnswerOf(e: Event, i: nat, env: Env): Answer {
    match Decide(e)
    case Skip => NoAnswer
    case Touch(_, Silent) => NoAnswer
    case Touch(_, Crash) => Aborts
    case Touch(_, Greeting) => if env.delivered(i) then Answers(GreetingText) else Aborts
    case Touch(_, Generated(text)) =>
      match env.complete(i, BuildRequest(text))
      case Threw => Aborts
      case Returned(content) => if env.delivered(i) then Answers(Finish(content)) else Aborts
  }

  /** The replies of a batch that runs to its end, in event order. */
  function Replies(events: seq<Event>, env: Env): seq<Outgoing>
    decreases |events|
  {
    if events == [] then []
    else
      var i := |events| - 1;
      Replies(events[..i], env) +
        match AnswerOf(events[i], i, env)
        case Answers(text) => [ReplyTo(events[i].replyToken, text)]
        case _ => []
  }

  /** How many events of the batch come from user `u`. */
  function TouchCount(events: seq<Event>, u: UserId): nat
    decreases |events|
  {
    if events == [] then 0
    else
      var e := events[|events| - 1];
      TouchCount(events[..|events| - 1], u) + if HasUser(e) && e.userId.value == u then 1 else 0
  }

  /** The users a batch touches. */
  function TouchedUsers(events: seq<Event>): set<UserId> {
    set e | e in events && HasUser(e) :: e.userId.value
  }

  /** No timer is ever cancelled on the webhook path, whatever the batch and however it ends. */
  lemma {:induction false} WebhookNeverCancels(w: World, events: seq<Event>, env: Env, offsets: seq<Option<int>>)
    ensures Run(w, events, env, offsets).world.cancelled == w.cancelled
    ensures Run(w, events, env, offsets).world.fired == w.fired
    decreases |events|
  {
    if events != [] {
      WebhookNeverCancels(w, events[..|events| - 1], env, offsets);
    }
  }

  /** `clearTimers` keeps the table well formed. */
  lemma ClearedWellFormed(w: World, u: UserId)
    requires WellFormed(w)
    ensures WellFormed(Cleared(w, u))
  {
    StoredIssued(w, u);
  }

  /** Once the loop has stopped, the events after that point are never looked at. */
  lemma {:induction false} RunStaysStopped(w: World, events: seq<Event>, k: nat, env: Env, offsets: seq<Option<int>>)
    requires k <= |events| && Run(w, events[..k], env, offsets).stopped
    ensures Run(w, events, env, offsets) == Run(w, events[..k], env, offsets)
    decreases |events|
  {
    if k < |events| {
      var n := |events| - 1;
      assert events[..n][..k] == events[..k];
      RunStaysStopped(w, events[..n], k, env, offsets);
    } else {
      assert events[..k] == events;
    }
  }

  /** The handler stops early exactly when some event's awaited call rejects (or its message is missing). */
  lemma {:induction false} WebhookStops(w: World, events: seq<Event>, env: Env, offsets: seq<Option<int>>)
    ensures Run(w, events, env, offsets).stopped <==> exists i :: 0 <= i < |events| && AnswerOf(events[i], i, env).Aborts?
    decreases |events|
  {
    if events != [] {
      var n := |events| - 1;
      WebhookStops(w, events[..n], env, offsets);
      var before := Run(w, events[..n], env, offsets);
      assert forall i :: 0 <= i < n ==> events[..n][i] == events[i];
      if !before.stopped {
        StepStops(before.world, events[n], n, env, offsets);
      }
    }
  }

  lemma StepStops(w: World, e: Event, i: nat, env: Env, offsets: seq<Option<int>>)
    ensures Step(w, e, i, env, offsets).stopped <==> AnswerOf(e, i, env).Aborts?
    ensures !Step(w, e, i, env, offsets).stopped ==>
      Step(w, e, i, env, offsets).world.sent == w.sent +
        match AnswerOf(e, i, env)
        case Answers(text) => [ReplyTo(e.replyToken, text)]
        case _ => []
  {
  }

  /**
   * A batch that runs to its end sends exactly the replies its events call
   * for, in event order: one generated reply per text message, the greeting
   * per follow event, nothing for any other event.
   */
  lemma {:induction false} WebhookReplies(w: World, events: seq<Event>, env: Env, offsets: seq<Option<int>>)
    requires !Run(w, events, env, offsets).stopped
    ensures Run(w, events, env, offsets).world.sent == w.sent + Replies(events, env)
    decreases |events|
  {
    if events != [] {
      var n := |events| - 1;
      WebhookReplies(w, events[..n], env, offsets);
      StepStops(Run(w, events[..n], env, offsets).world, events[n], n, env, offsets);
    }
  }

  /** The table after the loop body for `e`: its user touched, or nothing changed. */
  function TableAfter(w: World, e: Event, i: nat, env: Env, offsets: seq<Option<int>>): World {
    if HasUser(e) then Touched(w, e.userId.value, env.clock(i), offsets) else w
  }

  /** Apart from the replies it sends, the loop body changes only what touching its user changes. */
  lemma StepTable(w: World, e: Event, i: nat, env: Env, offsets: seq<Option<int>>)
    ensures var after := Step(w, e, i, env, offsets).world;
      after == TableAfter(w, e, i, env, offsets).(sent := after.sent)
  {
  }

  /** An event without a user id changes nothing and sends nothing. */
  lemma SkipChangesNothing(w: World, e: Event, i: nat, env: Env, offsets: seq<Option<int>>)
    requires !HasUser(e)
    ensures Step(w, e, i, env, offsets) == Progress(w, false)
    ensures AnswerOf(e, i, env) == NoAnswer
  {
  }

  /** A batch of events none of which has a user id leaves everything as it was. */
  lemma {:induction false} WebhookIgnoresAnonymous(w: World, events: seq<Event>, env: Env, offsets: seq<Option<int>>)
    requires forall e :: e in events ==> !HasUser(e)
    ensures Run(w, events, env, offsets) == Progress(w, false)
    decreases |events|
  {
    if events != [] {
      var n := |events| - 1;
      assert forall e :: e in events[..n] ==> e in events;
      WebhookIgnoresAnonymous(w, events[..n], env, offsets);
      assert events[n] in events;
    }
  }

  /**
   * The stale-reminder consequence: a batch that runs to its end leaves user
   * `u` with every reminder it had plus one more live timer per offset for each
   * of its events.
   */
  lemma {:induction false} WebhookLiveGrowth(w: World, events: seq<Event>, env: Env, offsets: seq<Option<int>>, u: UserId)
    requires WellFormed(w) && !Run(w, events, env, offsets).stopped
    ensures LiveFor(w, u) <= LiveFor(Run(w, events, env, offsets).world, u)
    ensures |LiveFor(Run(w, events, env, offsets).world, u)| == |LiveFor(w, u)| + |offsets| * TouchCount(events, u)
    decreases |events|
  {
    if events != [] {
      var n := |events| - 1;
      var before := Run(w, events[..n], env, offsets);
      WebhookLiveGrowth(w, events[..n], env, offsets, u);
      WebhookWellFormed(w, events[..n], env, offsets);
      var e := events[n];
      StepLiveGrowth(before.world, e, n, env, offsets, u);
      var m, t := |offsets|, TouchCount(events[..n], u);
      if HasUser(e) && e.userId.value == u {
        assert TouchCount(events, u) == t + 1;
        assert m * (t + 1) == m * t + m;
      } else {
        assert TouchCount(events, u) == t;
      }
    }
  }

  /** One event of user `u` adds one live reminder per offset for `u`; any other event leaves them alone. */
  lemma StepLiveGrowth(w: World, e: Event, i: nat, env: Env, offsets: seq<Option<int>>, u: UserId)
    requires WellFormed(w)
    ensures LiveFor(w, u) <= LiveFor(Step(w, e, i, env, offsets).world, u)
    ensures |LiveFor(Step(w, e, i, env, offsets).world, u)| ==
      |LiveFor(w, u)| + if HasUser(e) && e.userId.value == u then |offsets| else 0
  {
    StepTable(w, e, i, env, offsets);
    var table := TableAfter(w, e, i, env, offsets);
    assert LiveFor(Step(w, e, i, env, offsets).world, u) == LiveFor(table, u);
    if HasUser(e) {
      TouchedLive(w, e.userId.value, env.clock(i), offsets);
    }
  }

  /** The users of a batch that runs to its end all have a record afterwards; nobody else gains one. */
  lemma {:induction false} WebhookUsers(w: World, events: seq<Event>, env: Env, offsets: seq<Option<int>>)
    requires !Run(w, events, env, offsets).stopped
    ensures Run(w, events, env, offsets).world.users.Keys == w.users.Keys + TouchedUsers(events)
    decreases |events|
  {
    if events != [] {
      var n := |events| - 1;
      var before := Run(w, events[..n], env, offsets);
      WebhookUsers(w, events[..n], env, offsets);
      var e := events[n];
      StepTable(before.world, e, n, env, offsets);
      if HasUser(e) {
        TouchedEffect(before.world, e.userId.value, env.clock(n), offsets);
      }
      assert events == events[..n] + [e];
      assert TouchedUsers(events) == TouchedUsers(events[..n]) + TouchedUsers([e]);
    }
  }

  /** The webhook path keeps the table well formed. */
  lemma {:induction false} WebhookWellFormed(w: World, events: seq<Event>, env: Env, offsets: seq<Option<int>>)
    requires WellFormed(w)
    ensures WellFormed(Run(w, events, env, offsets).world)
    decreases |events|
  {
    if events != [] {
      var n := |events| - 1;
      WebhookWellFormed(w, events[..n], env, offsets);
      var before := Run(w, events[..n], env, offsets);
      if !before.stopped {
        StepTable(before.world, events[n], n, env, offsets);
        if HasUser(events[n]) {
          TouchedWellFormed(before.world, events[n].userId.value, env.clock(n), offsets);
        }
      }
    }
  }
}
