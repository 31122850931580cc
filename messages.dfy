/** The four recommendations of `generate_report` and the texts it prints
    for them. */
module Messages {
  datatype Advice = ConsiderBuying | HoldWatch | HoldWithCaution | ConsiderSelling

  /** The label each printed recommendation starts with. */
  function Label(r: Advice): string
  {
    match r
    case ConsiderBuying => "Consider Buying"
    case HoldWatch => "Hold/Watch"
    case HoldWithCaution => "Hold with Caution"
    case ConsiderSelling => "Consider Selling/Avoiding"
  }

  /** The explanation that follows the label. */
  function Reason(r: Advice): string
  {
    match r
    case ConsiderBuying => "Positive trend with good risk-adjusted returns"
    case HoldWatch => "Positive trend but lower risk-adjusted returns"
    case HoldWithCaution => "Negative trend but still some positive risk-adjusted returns"
    case ConsiderSelling => "Negative trend with poor risk-adjusted returns"
  }

  /** The text printed for each recommendation, "label: reason". */
  function Message(r: Advice): string
  {
    Label(r) + ": " + Reason(r)
  }

  /** The four recommendations print four different texts, of lengths 63,
      58, 79 and 73. */
  lemma MessagesDistinct(r1: Advice, r2: Advice)
    ensures Message(r1) == Message(r2) <==> r1 == r2
  {
    if r1 != r2 {
      MessageLength(r1);
      MessageLength(r2);
    }
  }

  lemma MessageLength(r: Advice)
    ensures |Message(r)| == match r
      case ConsiderBuying => 63
      case HoldWatch => 58
      case HoldWithCaution => 79
      case ConsiderSelling => 73
  {
  }
}
