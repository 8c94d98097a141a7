/**
 * The reminder plan read once at start-up from `REMINDER_MINUTES`: a
 * comma-separated list of minute offsets, each piece trimmed and read with
 * `parseInt(piece, 10)`. A piece that does not start with a digit gives NaN,
 * modelled as `None`.
 */
module Config {
  import opened Optional
  import opened JsStrings

  /** The text used when `REMINDER_MINUTES` is unset or empty. */
  const DefaultMinutesText: JsString := Js("120,240,480,1440")

  /** `process.env.REMINDER_MINUTES || '120,240,480,1440'`: the empty string is falsy too. */
  function MinutesText(env: Option<JsString>): (text: JsString)
    ensures text != []
    ensures env.Some? && env.value != [] ==> text == env.value
    ensures env.None? || env.value == [] ==> text == DefaultMinutesText
  {
    if env.Some? && env.value != [] then env.value else DefaultMinutesText
  }

  /** `reminderMinutes`: one entry per comma-separated piece, in order. */
  function ReminderMinutes(env: Option<JsString>): (minutes: seq<Option<int>>)
    ensures |minutes| == Count(MinutesText(env), Comma) + 1
    ensures forall i :: 0 <= i < |minutes| ==> minutes[i] == ParseInt(Trim(Split(MinutesText(env))[i]))
  {
    var pieces := Split(MinutesText(env));
    seq(|pieces|, i requires 0 <= i < |pieces| => ParseInt(Trim(pieces[i])))
  }

  /** The comma-separated decimal texts of `ns`, as `ns.join(',')` writes them. */
  function DecimalList(ns: seq<nat>): (text: JsString)
    requires |ns| >= 1
  {
    if |ns| == 1 then Decimal(ns[0]) else Decimal(ns[0]) + [Comma] + DecimalList(ns[1..])
  }

  /** The pieces `DecimalList` joins. */
  function DecimalPieces(ns: seq<nat>): (pieces: seq<JsString>)
    ensures |pieces| == |ns|
    ensures forall i :: 0 <= i < |ns| ==> pieces[i] == Decimal(ns[i])
  {
    seq(|ns|, i requires 0 <= i < |ns| => Decimal(ns[i]))
  }

  lemma {:induction false} DecimalListIsJoin(ns: seq<nat>)
    requires |ns| >= 1
    ensures DecimalList(ns) == Join(DecimalPieces(ns))
  {
    if |ns| > 1 {
      DecimalListIsJoin(ns[1..]);
      assert DecimalPieces(ns)[1..] == DecimalPieces(ns[1..]);
    }
  }

  /** Each piece of a decimal list reads back as its number. */
  lemma PieceValue(n: nat)
    ensures ParseInt(Trim(Decimal(n))) == Some(n as int)
  {
    DecimalShape(n);
    TrimUnpadded(Decimal(n));
    ParseDecimal(n);
  }

  /** Splitting a decimal list at its commas gives the decimal texts back. */
  lemma SplitDecimalList(ns: seq<nat>)
    requires |ns| >= 1
    ensures Split(DecimalList(ns)) == DecimalPieces(ns)
  {
    DecimalListIsJoin(ns);
    forall i | 0 <= i < |ns| {
      DecimalShape(ns[i]);
    }
    SplitJoin(DecimalPieces(ns));
  }

  /**
   * Whenever the configured text is a non-empty list of natural numbers written
   * in decimal and joined by commas, it is read back exactly, one offset per
   * number, in order.
   */
  lemma MinutesRoundTrip(env: Option<JsString>, ns: seq<nat>)
    requires |ns| >= 1 && MinutesText(env) == DecimalList(ns)
    ensures var minutes := ReminderMinutes(env);
      |minutes| == |ns| && forall i :: 0 <= i < |ns| ==> minutes[i] == Some(ns[i] as int)
  {
    SplitDecimalList(ns);
    var minutes := ReminderMinutes(env);
    forall i | 0 <= i < |ns|
      ensures minutes[i] == Some(ns[i] as int)
    {
      PieceValue(ns[i]);
    }
  }

  /** The code units of the default text. */
  const DefaultUnits: JsString := [0x31, 0x32, 0x30, 0x2C, 0x32, 0x34, 0x30, 0x2C, 0x34, 0x38, 0x30, 0x2C, 0x31, 0x34, 0x34, 0x30]

  lemma DefaultTextUnits()
    ensures DefaultMinutesText == DefaultUnits
  {
  }

  lemma DefaultListUnits()
    ensures DecimalList([120, 240, 480, 1440]) == DefaultUnits
  {
    var ns: seq<nat> := [120, 240, 480, 1440];
    assert Decimal(120) == [0x31, 0x32, 0x30];
    assert Decimal(240) == [0x32, 0x34, 0x30];
    assert Decimal(480) == [0x34, 0x38, 0x30];
    assert Decimal(1440) == [0x31, 0x34, 0x34, 0x30];
    assert DecimalList(ns[3..]) == Decimal(1440);
    assert DecimalList(ns[2..]) == Decimal(480) + [Comma] + DecimalList(ns[3..]);
    assert DecimalList(ns[1..]) == Decimal(240) + [Comma] + DecimalList(ns[2..]);
  }

  /** With `REMINDER_MINUTES` unset or empty, reminders come 2, 4, 8 and 24 hours after the last event. */
  lemma DefaultMinutes(env: Option<JsString>)
    requires env.None? || env.value == []
    ensures var minutes := ReminderMinutes(env);
      && |minutes| == 4
      && minutes[0] == Some(120) && minutes[1] == Some(240)
      && minutes[2] == Some(480) && minutes[3] == Some(1440)
  {
    var ns: seq<nat> := [120, 240, 480, 1440];
    assert MinutesText(env) == DecimalList(ns) by {
      DefaultTextUnits();
      DefaultListUnits();
    }
    MinutesRoundTrip(env, ns);
  }
}
