/**
 * The rule the forms use to turn a failed request into a message: the body's `message` joined
 * with ", " when it is an array, used as is when it is a non-empty string, and otherwise the
 * form's own default text.
 */
module ServerErrors {
  import Text

  /** `err.error.message` as the backend sends it; `Missing` covers an absent body or field. */
  datatype Message = Missing | Plain(text: string) | List(items: seq<string>)

  /** The message shown for a failed request whose default text is `fallback`. */
  function ErrorText(m: Message, fallback: string): (r: string)
    ensures m.List? ==> r == Text.Join(m.items, ", ")
    ensures m.Plain? && m.text != "" ==> r == m.text
    ensures m.Missing? || m == Plain("") ==> r == fallback
  {
    match m
    case List(items) => Text.Join(items, ", ")       // an array is truthy even when empty
    case Plain(text) => if text != "" then text else fallback
    case Missing => fallback
  }

  /** Every entry of an array message appears in the text shown. */
  lemma ErrorTextShowsEveryItem(items: seq<string>, fallback: string, i: nat)
    requires i < |items|
    ensures Text.Contains(ErrorText(List(items), fallback), items[i])
  {
    Text.JoinContainsItems(items, ", ", i);
  }

  /** The text of an array message is its entries plus two characters per separator. */
  lemma ErrorTextLength(items: seq<string>, fallback: string)
    requires |items| > 0
    ensures |ErrorText(List(items), fallback)| == Text.TotalLength(items) + 2 * (|items| - 1)
  {
    Text.JoinLength(items, ", ");
  }
}
