/**
 * The public landing page: a five-image carousel and the result messages of the patient's
 * booking request.
 */
module DoctorPresentation {
  import opened Base
  import ServerErrors

  /** `carouselImages.length` */
  const SlideCount := 5

  const ValidationError := "Por favor, completa todos los campos requeridos y corrige los errores."
  const BookingSuccess := "¡Tu cita ha sido agendada exitosamente! Nos pondremos en contacto pronto."
  const BookingFailure := "Hubo un error al agendar tu cita. Por favor, inténtalo de nuevo."

  /** JavaScript's `%`: truncating division, so the remainder has the sign of `a`. */
  function JsRem(a: int, n: int): (r: int)
    requires n > 0
    ensures a >= 0 ==> r == a % n
    ensures a < 0 ==> r == -((-a) % n)
  {
    if a >= 0 then a % n else -((-a) % n)
  }

  /** `(currentIndex + 1) % carouselImages.length` */
  function NextIndex(i: int): (r: int)
    ensures 0 <= i < SlideCount ==> 0 <= r < SlideCount
    ensures 0 <= i < SlideCount - 1 ==> r == i + 1
    ensures i == SlideCount - 1 ==> r == 0
  {
    JsRem(i + 1, SlideCount)
  }

  function Advance(i: int, steps: nat): int
    decreases steps
  {
    if steps == 0 then i else Advance(NextIndex(i), steps - 1)
  }

  /** Five `nextSlide` calls bring an index in range back to where it started. */
  lemma {:induction false} FullCycle(i: int)
    requires 0 <= i < SlideCount
    ensures Advance(i, SlideCount) == i
  {
    var a1 := NextIndex(i);
    var a2 := NextIndex(a1);
    var a3 := NextIndex(a2);
    var a4 := NextIndex(a3);
    var a5 := NextIndex(a4);
    assert Advance(i, 5) == Advance(a1, 4) == Advance(a2, 3) == Advance(a3, 2) == Advance(a4, 1) == a5;
  }

  /**
   * `goToSlide` does not check its argument; from a negative index `nextSlide` counts up through
   * negative values (JavaScript's `%` keeps the sign) until it reaches 0.
   */
  lemma NegativeIndexClimbs(i: int)
    requires -SlideCount < i < 0
    ensures NextIndex(i) == i + 1
  {
  }

  class DoctorPresentation {
    var currentIndex: int
    var loadingAppointment: bool
    var submitMessage: Option<string>
    var errorMessage: Option<string>
    /** Booking requests sent. */
    var bookingsSent: nat

    constructor()
      ensures currentIndex == 0 && !loadingAppointment && submitMessage == None && errorMessage == None
      ensures bookingsSent == 0
    {
      currentIndex := 0;
      loadingAppointment := false;
      submitMessage, errorMessage := None, None;
      bookingsSent := 0;
    }

    method NextSlide()
      modifies this`currentIndex
      ensures currentIndex == NextIndex(old(currentIndex))
      ensures 0 <= old(currentIndex) < SlideCount ==> 0 <= currentIndex < SlideCount
    {
      currentIndex := JsRem(currentIndex + 1, SlideCount);
    }

    /** `goToSlide(index)`: the index is taken as given. */
    method GoToSlide(index: int)
      modifies this`currentIndex
      ensures currentIndex == index
    {
      currentIndex := index;
    }

    /** `onFormSubmittedByPatient`: messages cleared, then either the validation error or a request. */
    method OnFormSubmittedByPatient(isValid: bool)
      modifies this`submitMessage, this`errorMessage, this`loadingAppointment, this`bookingsSent
      ensures submitMessage == None
      ensures !isValid ==> errorMessage == Some(ValidationError) && loadingAppointment == old(loadingAppointment)
                           && bookingsSent == old(bookingsSent)
      ensures isValid ==> errorMessage == None && loadingAppointment && bookingsSent == old(bookingsSent) + 1
    {
      submitMessage := None;
      errorMessage := None;
      if !isValid {
        errorMessage := Some(ValidationError);
        return;
      }
      loadingAppointment := true;
      bookingsSent := bookingsSent + 1;
    }

    /** The booking succeeded. */
    method OnBookingSuccess()
      modifies this`submitMessage, this`loadingAppointment
      ensures submitMessage == Some(BookingSuccess) && !loadingAppointment
    {
      submitMessage := Some(BookingSuccess);
      loadingAppointment := false;
    }

    /** The booking failed: the server's message (array joined, else string), else the default text. */
    method OnBookingError(message: ServerErrors.Message)
      modifies this`errorMessage, this`loadingAppointment
      ensures errorMessage == Some(ServerErrors.ErrorText(message, BookingFailure)) && !loadingAppointment
    {
      errorMessage := Some(ServerErrors.ErrorText(message, BookingFailure));
      loadingAppointment := false;
    }

    /** The success message disappears five seconds after it was shown. */
    method OnSubmitMessageExpired()
      modifies this`submitMessage
      ensures submitMessage == None
    {
      submitMessage := None;
    }

    /** The booking error disappears eight seconds after it was shown. */
    method OnErrorMessageExpired()
      modifies this`errorMessage
      ensures errorMessage == None
    {
      errorMessage := None;
    }
  }
}
