/**
 * The phone-number input directive: the displayed text is shown as `XXX-XXX-XXXX` once it holds
 * exactly ten digits, and the bound form control receives the digits only.
 */
module PhoneFormatter {
  import Seqs
  import Text

  /** `formatPhoneNumber`: the digits of `value`, dashed as `ddd-ddd-dddd` when there are exactly ten. */
  function FormatPhoneNumber(value: string): (r: string)
    ensures value == "" ==> r == ""
    ensures var d := Text.DigitsOnly(value);
      |d| == 10 ==> |r| == 12 && r[3] == '-' && r[7] == '-' && r[..3] == d[..3] && r[4..7] == d[3..6] && r[8..] == d[6..]
    ensures var d := Text.DigitsOnly(value); |d| != 10 ==> r == d
  {
    if value == "" then ""
    else
      var digits := Text.DigitsOnly(value);
      if |digits| == 10 then digits[..3] + "-" + digits[3..6] + "-" + digits[6..] else digits
  }

  /** A dash between two pieces is dropped by stripping. */
  lemma DigitsAcrossDash(a: string, b: string)
    ensures Text.DigitsOnly(a + "-" + b) == Text.DigitsOnly(a) + Text.DigitsOnly(b)
  {
    var rest := "-" + b;
    assert a + "-" + b == a + rest;
    Seqs.FilterAppend(a, rest, Text.IsDigit);
    assert rest[1..] == b;
  }

  /** Stripping the dashes from three digit groups joined by dashes gives the groups back. */
  lemma DigitsOfGroups(a: string, b: string, c: string)
    requires Text.AllDigits(a) && Text.AllDigits(b) && Text.AllDigits(c)
    ensures Text.DigitsOnly(a + "-" + b + "-" + c) == a + b + c
  {
    Text.DigitsOnlyOfDigits(a);
    Text.DigitsOnlyOfDigits(b);
    Text.DigitsOnlyOfDigits(c);
    DigitsAcrossDash(a, b);
    DigitsAcrossDash(a + "-" + b, c);
  }

  /** Stripping the dashes from `ddd-ddd-dddd` gives back the ten digits. */
  lemma DashedDigits(d: string)
    requires |d| == 10 && Text.AllDigits(d)
    ensures Text.DigitsOnly(d[..3] + "-" + d[3..6] + "-" + d[6..]) == d
  {
    DigitsOfGroups(d[..3], d[3..6], d[6..]);
    assert d == d[..3] + d[3..6] + d[6..];
  }

  /** Stripping the dashes from a formatted number gives back exactly the digits typed. */
  lemma DigitsRoundTrip(value: string)
    ensures Text.DigitsOnly(FormatPhoneNumber(value)) == Text.DigitsOnly(value)
  {
    var d := Text.DigitsOnly(value);
    if value == "" {
      assert d == [];
    } else if |d| == 10 {
      DashedDigits(d);
    } else {
      Text.DigitsOnlyOfDigits(d);
    }
  }

  /** Formatting depends only on the digits: formatting the stripped value gives the same text. */
  lemma FormatIgnoresNonDigits(value: string)
    ensures FormatPhoneNumber(Text.DigitsOnly(value)) == FormatPhoneNumber(value)
  {
    var d := Text.DigitsOnly(value);
    Text.DigitsOnlyOfDigits(d);
  }

  /** Formatting an already formatted value changes nothing. */
  lemma FormatIdempotent(value: string)
    ensures FormatPhoneNumber(FormatPhoneNumber(value)) == FormatPhoneNumber(value)
  {
    var f := FormatPhoneNumber(value);
    DigitsRoundTrip(value);
    FormatIgnoresNonDigits(f);
    FormatIgnoresNonDigits(value);
  }

  /** The directive's state: the input element's text and the bound form control, if any. */
  class PhoneNumberFormatterDirective {
    /** `inputElement.value` */
    var displayed: string
    /** Whether `ngControl.control` is present, and its value. */
    var hasControl: bool
    var controlValue: string

    constructor(displayed: string, hasControl: bool, controlValue: string)
      ensures this.displayed == displayed && this.hasControl == hasControl && this.controlValue == controlValue
    {
      this.displayed := displayed;
      this.hasControl := hasControl;
      this.controlValue := controlValue;
    }

    /**
     * The `input` handler: the text is reformatted and the control set to its digits, written
     * (`wrote`) only when it held something else.
     */
    method OnInput() returns (wrote: bool)
      modifies this`displayed, this`controlValue
      ensures displayed == FormatPhoneNumber(old(displayed))
      ensures wrote <==> hasControl && old(controlValue) != Text.DigitsOnly(old(displayed))
      ensures controlValue == if hasControl then Text.DigitsOnly(old(displayed)) else old(controlValue)
      ensures hasControl ==> Text.AllDigits(controlValue)
    {
      var formattedValue := FormatPhoneNumber(displayed);
      displayed := formattedValue;
      var numericValue := Text.DigitsOnly(formattedValue);
      DigitsRoundTrip(old(displayed));
      wrote := false;
      if hasControl && controlValue != numericValue {
        controlValue := numericValue;
        wrote := true;
      }
    }

    /** The `focus` handler: only the digits are shown while editing. */
    method OnFocus()
      modifies this`displayed
      ensures displayed == Text.DigitsOnly(old(displayed))
      ensures Text.AllDigits(displayed)
    {
      displayed := Text.DigitsOnly(displayed);
    }

    /** The `blur` handler: the digits are shown formatted again. */
    method OnBlur()
      modifies this`displayed
      ensures displayed == FormatPhoneNumber(Text.DigitsOnly(old(displayed)))
      ensures displayed == FormatPhoneNumber(old(displayed))
    {
      var currentNumericValue := Text.DigitsOnly(displayed);
      FormatIgnoresNonDigits(displayed);
      displayed := FormatPhoneNumber(currentNumericValue);
    }
  }
}
