/**
 * `generateReply`: the tone chosen by a keyword test, the three-message request
 * sent to the completion API, and the post-processing of what comes back.
 */
module Reply {
  import opened Optional
  import opened JsStrings

  // ---------------------------------------------------------------------------
  // Keyword classification: /code|bug|error|linux|python|ipmi|api|docker|sql/i
  // ---------------------------------------------------------------------------

  /** The alternatives of the technical-vocabulary pattern, in the pattern's order. */
  const Keywords: seq<JsString> :=
    [Js("code"), Js("bug"), Js("error"), Js("linux"), Js("python"), Js("ipmi"), Js("api"), Js("docker"), Js("sql")]

  /**
   * Case folding of an ignore-case pattern without the `u` flag, as far as the
   * lower-case ASCII keywords can see it: a code unit matches a keyword letter
   * exactly when it is that letter in either case (non-ASCII characters whose
   * upper case is ASCII, such as U+0131, are excluded by the canonicalization).
   */
  function FoldAscii(u: CodeUnit): (f: CodeUnit)
    ensures 0x41 <= u <= 0x5A ==> f == u + 0x20
    ensures !(0x41 <= u <= 0x5A) ==> f == u
  {
    if 0x41 <= u <= 0x5A then u + 0x20 else u
  }

  /** `word` occurs in `text` at index `i`, ignoring ASCII case. */
  predicate MatchesAt(text: JsString, word: JsString, i: nat) {
    i + |word| <= |text| && forall k :: 0 <= k < |word| ==> FoldAscii(text[i + k]) == word[k]
  }

  /** Some alternative of the pattern matches at index `i`. */
  predicate KeywordAt(text: JsString, i: nat) {
    exists w :: w in Keywords && MatchesAt(text, w, i)
  }

  /** The pattern matches at some index at or after `i`. */
  function TechFrom(text: JsString, i: nat): (b: bool)
    requires i <= |text|
    ensures b <==> exists j :: i <= j <= |text| && KeywordAt(text, j)
    decreases |text| - i
  {
    if KeywordAt(text, i) then true
    else if i == |text| then false
    else TechFrom(text, i + 1)
  }

  /**
   * `isTech`: true exactly when some keyword occurs somewhere in the text,
   * ignoring ASCII case.
   */
  function IsTech(text: JsString): (b: bool)
    ensures b <==> exists w, i :: w in Keywords && MatchesAt(text, w, i)
  {
    assert forall w, i: nat :: w in Keywords && MatchesAt(text, w, i) ==> i <= |text| && KeywordAt(text, i);
    TechFrom(text, 0)
  }

  // ---------------------------------------------------------------------------
  // The completion request
  // ---------------------------------------------------------------------------

  datatype Tone = Technical | Companionable

  /** The model identifier sent with every request. */
  const ModelName: JsString := Js("gpt-4o-mini")

  const TechnicalRole: JsString := Js("你是溫柔但專業的工程師女友，精簡清楚地解決技術問題。")
  const CompanionRole: JsString := Js("你是使用者的女友，溫柔、有溫度、黏黏的，不做作。")
  const TechnicalStyle: JsString := Js("回應要有具體指令或範例。")
  const CompanionStyle: JsString := Js("讓對方有被陪伴的感覺，像在耳邊輕聲說話。")

  /**
   * The request: a system message framing the role, the user's own text, and a
   * second system message giving the style. The temperature, 0.7, is a
   * floating-point constant of the call and is not part of this value.
   */
  datatype ChatRequest = ChatRequest(model: JsString, role: JsString, user: JsString, style: JsString)

  function ToneOf(text: JsString): (t: Tone)
    ensures t == Technical <==> exists w, i :: w in Keywords && MatchesAt(text, w, i)
  {
    if IsTech(text) then Technical else Companionable
  }

  function RoleFor(t: Tone): JsString {
    match t
    case Technical => TechnicalRole
    case Companionable => CompanionRole
  }

  function StyleFor(t: Tone): JsString {
    match t
    case Technical => TechnicalStyle
    case Companionable => CompanionStyle
  }

  /** The request `generateReply(text)` sends: both instructions follow one tone, and the text is sent unchanged. */
  function BuildRequest(text: JsString): (r: ChatRequest)
    ensures r.model == ModelName && r.user == text
    ensures r.role == RoleFor(ToneOf(text)) && r.style == StyleFor(ToneOf(text))
    ensures r.role == TechnicalRole <==> IsTech(text)
  {
    var t := ToneOf(text);
    ChatRequest(ModelName, RoleFor(t), text, StyleFor(t))
  }

  /** A technical question in mixed case selects the technical tone. */
  lemma TechnicalExample()
    ensures IsTech(Js("Fix this BUG"))
  {
    var text := Js("Fix this BUG");
    assert MatchesAt(text, Keywords[1], 9);
  }

  // ---------------------------------------------------------------------------
  // Post-processing the completion
  // ---------------------------------------------------------------------------

  /** The reply sent when the completion carries no usable text. */
  const Fallback: JsString := Js("我在這裡喔～")

  /** The longest reply, in UTF-16 code units. */
  const MaxReplyLength: nat := 4000

  /**
   * `res.choices?.[0]?.message?.content?.trim().slice(0, 4000) || '我在這裡喔～'`,
   * where `content` is `None` when any link of the chain is absent.
   */
  function Finish(content: Option<JsString>): (reply: JsString)
    ensures 0 < |reply| <= MaxReplyLength
    ensures content.None? || AllWhite(content.value) ==> reply == Fallback
    ensures content.Some? && !AllWhite(content.value) ==>
      var t := Trim(content.value);
      && reply <= t
      && |reply| == (if |t| < MaxReplyLength then |t| else MaxReplyLength)
  {
    match content
    case None => Fallback
    case Some(c) =>
      var r := Prefix(Trim(c), MaxReplyLength);
      if r == [] then Fallback else r
  }

  /** A completion that fits is sent exactly as the API returned it, once trimmed. */
  lemma FinishKeepsShortContent(c: JsString)
    requires !AllWhite(c) && |Trim(c)| <= MaxReplyLength
    ensures Finish(Some(c)) == Trim(c)
  {
  }
}
