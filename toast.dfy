/** The transient notice shown after a submission: what it displays. */
module Toast {
  import opened Wrappers

  /** Longer messages are cut to this many characters. */
  const MaxLen: nat := 60

  const Ellipsis: char := '\U{2026}'

  datatype ToastType = Success | Error

  /** The rendered notice: its text, the `title` tooltip (None for `undefined`) and its kind. */
  datatype ToastView = ToastView(text: string, title: Option<string>, kind: ToastType)

  /** `!message` for `string | null`: null and the empty string render nothing. */
  predicate Shown(message: Option<string>)
  {
    message.Some? && message.value != ""
  }

  /**
   * The notice for `message`. A message of at most `MaxLen` characters is
   * shown whole with no tooltip; a longer one is cut to its first `MaxLen`
   * characters plus an ellipsis, and the whole message becomes the tooltip.
   */
  function Render(message: Option<string>, kind: ToastType): (v: Option<ToastView>)
    ensures v.Some? <==> Shown(message)
    ensures v.Some? ==> v.value.kind == kind
    ensures v.Some? && |message.value| <= MaxLen ==> v.value.text == message.value && v.value.title == None
    ensures v.Some? && |message.value| > MaxLen ==>
              |v.value.text| == MaxLen + 1 && v.value.text[MaxLen] == Ellipsis &&
              v.value.title == message
  {
    if !Shown(message) then None
    else
      var m := message.value;
      if |m| > MaxLen then Some(ToastView(m[..MaxLen] + [Ellipsis], Some(m), kind))
      else Some(ToastView(m, None, kind))
  }

  /**
   * Nothing of the message is lost: what is shown is a prefix of the message
   * (possibly followed by the ellipsis), and whenever it is not the whole
   * message, the whole message is in the tooltip.
   */
  lemma RenderKeepsMessage(message: Option<string>, kind: ToastType)
    requires Shown(message)
    ensures var v := Render(message, kind).value;
            var shown := if |message.value| > MaxLen then MaxLen else |message.value|;
            v.text[..shown] == message.value[..shown] &&
            (v.text != message.value ==> v.title == message) &&
            |v.text| <= MaxLen + 1
  {
  }
}
