/**
 * The customer check-in form: a phone field kept formatted as it is
 * typed, a business selection, and the check-in button's guard. The form
 * only flips its own "checked in" state; it shows a success message that
 * depends on the selected business's loyalty type.
 */
module CheckInForm {
  import opened Wrappers
  import opened Businesses
  import opened PhoneFormat

  /** The notification the check-in button raises. */
  datatype Toast = MissingInformation | CheckInSuccessful

  class Form {
    var phoneNumber: string
    var selectedBusiness: string     // the selected business's id, or "" for none
    var isCheckedIn: bool

    constructor ()
      ensures phoneNumber == "" && selectedBusiness == "" && !isCheckedIn
    {
      phoneNumber := "";
      selectedBusiness := "";
      isCheckedIn := false;
    }

    /** The phone field's change handler: it stores the formatted value. */
    method HandlePhoneChange(value: string)
      modifies this
      ensures phoneNumber == FormatPhoneNumber(value)
      ensures |phoneNumber| <= MaxLength
      ensures selectedBusiness == old(selectedBusiness) && isCheckedIn == old(isCheckedIn)
    {
      phoneNumber := FormatPhoneNumber(value);
    }

    /** The business selector's change handler. */
    method SelectBusiness(id: string)
      modifies this
      ensures selectedBusiness == id
      ensures phoneNumber == old(phoneNumber) && isCheckedIn == old(isCheckedIn)
    {
      selectedBusiness := id;
    }

    /**
     * The check-in button: with an empty phone or no selected business it
     * only warns; otherwise the form enters its checked-in state. The
     * fields themselves are not touched.
     */
    method HandleCheckIn() returns (toast: Toast)
      modifies this
      ensures phoneNumber == old(phoneNumber) && selectedBusiness == old(selectedBusiness)
      ensures toast == MissingInformation <==> (phoneNumber == "" || selectedBusiness == "")
      ensures toast == MissingInformation ==> isCheckedIn == old(isCheckedIn)
      ensures toast == CheckInSuccessful ==> isCheckedIn
    {
      if phoneNumber == "" || selectedBusiness == "" {
        return MissingInformation;
      }
      isCheckedIn := true;
      return CheckInSuccessful;
    }
  }

  /** `businesses.find(b => b.id.toString() === selected)`: the first match. */
  function FindBusiness(businesses: seq<Business>, selected: string): (r: Option<Business>)
    ensures r.None? <==> forall i :: 0 <= i < |businesses| ==> businesses[i].id != selected
    ensures r.Some? ==> exists i :: 0 <= i < |businesses| && businesses[i] == r.value
                          && r.value.id == selected
                          && forall j :: 0 <= j < i ==> businesses[j].id != selected
  {
    if businesses == [] then None
    else if businesses[0].id == selected then Some(businesses[0])
    else
      var r := FindBusiness(businesses[1..], selected);
      if r.Some? then
        ghost var i :| 0 <= i < |businesses[1..]| && businesses[1..][i] == r.value
                       && r.value.id == selected
                       && forall j :: 0 <= j < i ==> businesses[1..][j].id != selected;
        assert businesses[i + 1] == r.value;
        r
      else r
  }

  const VisitAddedMessage := "+1 visit added to your loyalty card"
  const PointsAddedMessage := "+50 points added to your account"

  /** The line shown in the checked-in state, for the selected business (if any). */
  function SuccessMessage(selected: Option<Business>): (m: string)
  {
    if selected.Some? && selected.value.loyaltyType == VisitBased then VisitAddedMessage
    else PointsAddedMessage
  }

  /**
   * The message promises a visit exactly for a visit-based selection; any
   * other loyalty type, and no selection at all, gets the points message.
   */
  lemma SuccessMessageChoice(businesses: seq<Business>, selected: string)
    ensures var m := SuccessMessage(FindBusiness(businesses, selected));
            (m == VisitAddedMessage <==>
               exists i :: 0 <= i < |businesses| && businesses[i].id == selected
                 && businesses[i].loyaltyType == VisitBased
                 && forall j :: 0 <= j < i ==> businesses[j].id != selected)
            && (m == VisitAddedMessage || m == PointsAddedMessage)
  {
    var r := FindBusiness(businesses, selected);
    if SuccessMessage(r) == VisitAddedMessage {
      var i :| 0 <= i < |businesses| && businesses[i] == r.value && r.value.id == selected
               && forall j :: 0 <= j < i ==> businesses[j].id != selected;
      assert businesses[i].loyaltyType == VisitBased;
    }
  }

  /**
   * Typing into the phone field lets the guard pass exactly when the typed
   * text held at least one digit: a single digit is enough.
   */
  lemma PhoneGuardNeedsOneDigit(value: string)
    ensures FormatPhoneNumber(value) != "" <==> DigitsOnly(value) != []
  {
    FormatEmptyIffNoDigits(value);
  }
}
