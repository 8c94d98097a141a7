/**
 * The text of a proactive reminder: a pet name drawn at random, a fullwidth tilde and
 * the template chosen by the reminder's position in the plan.
 */
module Sweet {
  import opened JsStrings

  /** `SWEET.nicknames`. */
  const Nicknames: seq<JsString> :=
    [Js("寶"), Js("寶寶"), Js("乖寶"), Js("可愛寶"), Js("我的寶"), Js("小太陽"), Js("小狐狸"), Js("老公")]

  /** `SWEET.reminders`. */
  const Reminders: seq<JsString> := [
    Js("在忙嗎？我有點想你了。"),
    Js("我在等你抱我。"),
    Js("老公～快回來，我想黏著你。"),
    Js("我一直在喔，等你靠過來。")
  ]

  /** The FULLWIDTH TILDE U+FF5E placed between the pet name and the template. */
  const FullwidthTilde: CodeUnit := 0xFF5E

  /** `idx % SWEET.reminders.length`: the template a reminder at `position` uses. */
  function TemplateIndex(position: nat): (t: nat)
    ensures t < |Reminders| == 4
    ensures (position - t) % 4 == 0
    ensures position < 4 ==> t == position
  {
    position % |Reminders|
  }

  /**
   * The text a reminder at `position` pushes when `pick` draws pet name `nick`
   * (`Math.floor(Math.random() * 8)` always lies below 8).
   */
  function ReminderText(nick: nat, position: nat): (text: JsString)
    requires nick < |Nicknames|
    ensures exists name :: name in Nicknames && text == name + [FullwidthTilde] + Reminders[TemplateIndex(position)]
  {
    Nicknames[nick] + [FullwidthTilde] + Reminders[TemplateIndex(position)]
  }

  /** The position of the first fullwidth tilde in `s`, or `|s|` when there is none. */
  function FirstTilde(s: JsString): (i: nat)
    ensures i <= |s|
    ensures FullwidthTilde !in s[..i]
    ensures i < |s| ==> s[i] == FullwidthTilde
  {
    if s == [] || s[0] == FullwidthTilde then 0
    else
      var j := FirstTilde(s[1..]);
      assert s[..j + 1] == [s[0]] + s[1..][..j];
      j + 1
  }

  /** A reminder text cut at its first fullwidth tilde: the pet name and the template. */
  function Decompose(text: JsString): (parts: (JsString, JsString)) {
    var i := FirstTilde(text);
    if i < |text| then (text[..i], text[i + 1..]) else (text, [])
  }

  lemma NoTildeInNicknames()
    ensures forall name :: name in Nicknames ==> FullwidthTilde !in name
  {
  }

  /**
   * A pushed reminder determines the pet name that was drawn and the template
   * that was used: cutting it at its first fullwidth tilde gives both back.
   */
  lemma ReminderTextDecomposes(nick: nat, position: nat)
    requires nick < |Nicknames|
    ensures Decompose(ReminderText(nick, position)) == (Nicknames[nick], Reminders[TemplateIndex(position)])
  {
    NoTildeInNicknames();
    var name := Nicknames[nick];
    var text := ReminderText(nick, position);
    var i := FirstTilde(text);
    assert text[..|name|] == name;
    assert text[|name|] == FullwidthTilde;
    assert i <= |name| ==> text[..i] == name[..i];
    assert i == |name|;
    assert text[i + 1..] == Reminders[TemplateIndex(position)];
  }
}
