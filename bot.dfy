/**
 * The running process: the `users` map and the timer runtime as fields of one
 * object, updated in place by `clearTimers`, `scheduleReminders`, the webhook
 * loop and the timer callbacks. Each method is proved to leave exactly the
 * state the corresponding function of `Reminders` describes.
 */
module Process {
  import opened Optional
  import opened JsStrings
  import opened Events
  import opened Sweet
  import opened Reply
  import opened Config
  import opened Reminders

  class Bot {
    /** `reminderMinutes`, read once at start-up. */
    const offsets: seq<Option<int>>

    /** `users`: user id to last activity and pending timer handles. */
    var users: map<UserId, UserRecord>
    /** Every timer `setTimeout` has created; a handle is its index here. */
    var issued: seq<Timer>
    /** The handles passed to `clearTimeout`. */
    var cancelled: set<nat>
    /** The handles whose callback has run. */
    var fired: set<nat>
    /** The messages handed to the messaging platform, in order. */
    var sent: seq<Outgoing>

    function State(): World
      reads this
    {
      World(users, issued, cancelled, fired, sent)
    }

    ghost predicate Valid()
      reads this
    {
      WellFormed(State())
    }

    /** Start-up with `REMINDER_MINUTES` set to `env` (`None` when unset). */
    constructor(env: Option<JsString>)
      ensures offsets == ReminderMinutes(env)
      ensures State() == Initial && Valid()
    {
      offsets := ReminderMinutes(env);
      users := map[];
      issued := [];
      cancelled := {};
      fired := {};
      sent := [];
      InitialWellFormed();
    }

    /** `setTimeout(callback, delay)`: a new handle, never used before. */
    method SetTimeout(timer: Timer) returns (h: nat)
      modifies this
      ensures h == |old(issued)|
      ensures State() == old(State()).(issued := old(issued) + [timer])
    {
      h := |issued|;
      issued := issued + [timer];
    }

    /** `clearTimeout(h)`. */
    method ClearTimeout(h: nat)
      modifies this
      ensures State() == old(State()).(cancelled := old(cancelled) + {h})
    {
      cancelled := cancelled + {h};
    }

    /** `clearTimers(userId)`. */
    method ClearTimers(u: UserId)
      modifies this
      ensures State() == Cleared(old(State()), u)
      ensures old(Valid()) ==> Valid()
    {
      if old(Valid()) {
        ClearedWellFormed(State(), u);
      }
      if u !in users {
        return;
      }
      var timers := users[u].timers;
      var i := 0;
      while i < |timers|
        invariant 0 <= i <= |timers|
        invariant State() == old(State()).(cancelled := old(cancelled) + Elements(timers[..i]))
      {
        ClearTimeout(timers[i]);
        assert Elements(timers[..i + 1]) == Elements(timers[..i]) + {timers[i]} by {
          assert timers[..i + 1] == timers[..i] + [timers[i]];
        }
        i := i + 1;
      }
      assert timers[..i] == timers;
      users := users[u := users[u].(timers := [])];
    }

    /** `scheduleReminders(userId)`, with `Date.now()` reading `now`. */
    method ScheduleReminders(u: UserId, now: int)
      modifies this
      ensures State() == Scheduled(old(State()), u, now, offsets)
      ensures old(Valid()) ==> Valid()
    {
      if old(Valid()) {
        ScheduledWellFormed(State(), u, now, offsets);
      }
      ClearTimers(u);
      ghost var cleared := State();
      var start := |issued|;
      var timers: seq<nat> := [];
      var idx := 0;
      while idx < |offsets|
        invariant 0 <= idx <= |offsets|
        invariant users == cleared.users && cancelled == cleared.cancelled
        invariant fired == cleared.fired && sent == cleared.sent
        invariant issued == cleared.issued + Plan(u, offsets[..idx])
        invariant timers == Handles(start, idx)
      {
        var h := SetTimeout(Timer(u, DelayMs(offsets[idx]), idx));
        assert Plan(u, offsets[..idx + 1]) == Plan(u, offsets[..idx]) + [Timer(u, DelayMs(offsets[idx]), idx)];
        timers := timers + [h];
        idx := idx + 1;
      }
      assert offsets[..idx] == offsets;
      users := users[u := UserRecord(now, timers)];
    }

    /** `await client.replyMessage(token, text)`: `true` when the call rejects. */
    method ReplyMessage(token: string, text: JsString, delivered: bool) returns (failed: bool)
      modifies this
      ensures Progress(State(), failed) == SendReply(old(State()), token, text, delivered)
    {
      if delivered {
        sent := sent + [ReplyTo(token, text)];
        failed := false;
      } else {
        failed := true;
      }
    }

    /** The loop body for event `e` at position `i`: `true` when the handler ends there. */
    method HandleEvent(e: Event, i: nat, env: Env) returns (stopped: bool)
      modifies this
      ensures Progress(State(), stopped) == Step(old(State()), e, i, env, offsets)
      ensures old(Valid()) ==> Valid()
    {
      ghost var before := State();
      if e.userId.None? || e.userId.value == "" {
        return false;
      }
      var u := e.userId.value;
      var now := env.clock(i);
      users := users[u := UserRecord(now, [])];
      ScheduleReminders(u, now);
      assert State() == Touched(before, u, now, offsets);
      if e.kind == "message" {
        if e.message.None? {
          stopped := true;
        } else if e.message.value.kind == "text" {
          var completion := env.complete(i, BuildRequest(e.message.value.text));
          if completion.Threw? {
            stopped := true;
          } else {
            stopped := ReplyMessage(e.replyToken, Finish(completion.content), env.delivered(i));
          }
        } else {
          stopped := false;
        }
      } else if e.kind == "follow" {
        stopped := ReplyMessage(e.replyToken, GreetingText, env.delivered(i));
      } else {
        stopped := false;
      }
      StepTable(before, e, i, env, offsets);
      if WellFormed(before) {
        TouchedWellFormed(before, u, now, offsets);
      }
    }

    /** `POST /webhook` with `req.body.events` given as `events` (`None` when absent). */
    method HandleWebhook(events: Option<seq<Event>>, env: Env) returns (stopped: bool)
      modifies this
      ensures Progress(State(), stopped) == Webhook(old(State()), events, env, offsets)
      ensures old(Valid()) ==> Valid()
    {
      var es := events.GetOr([]);
      stopped := false;
      var i := 0;
      while i < |es|
        invariant 0 <= i <= |es|
        invariant Run(old(State()), es[..i], env, offsets) == Progress(State(), false)
        invariant old(Valid()) ==> Valid()
      {
        assert es[..i + 1][..i] == es[..i];
        stopped := HandleEvent(es[i], i, env);
        if stopped {
          RunStaysStopped(old(State()), es, i + 1, env, offsets);
          return;
        }
        i := i + 1;
      }
      assert es[..i] == es;
    }

    /** The callback of timer `h` running, with `pick` drawing pet name `nick`. */
    method FireTimer(h: nat, nick: nat)
      requires nick < |Nicknames|
      modifies this
      ensures State() == Fired(old(State()), h, nick)
      ensures old(Valid()) ==> Valid()
    {
      ghost var before := State();
      if h < |issued| && h !in cancelled && h !in fired {
        var timer := issued[h];
        fired := fired + {h};
        sent := sent + [PushTo(timer.user, ReminderText(nick, timer.position))];
      }
      if old(Valid()) {
        FiredWellFormed(before, h, nick);
      }
    }
  }
}
